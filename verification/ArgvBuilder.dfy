/** The growing argument vector of the launcher, with every allocation allowed to fail. */
module ArgvBuilder {
  import opened Wrappers
  import opened BwrapOptions

  type Pointer = Option<nat> // None is NULL

  /** The strings that are allocated and not yet freed; an address is never handed out twice. */
  class Heap {
    var strings: map<nat, string>
    var next: nat

    ghost predicate Valid()
      reads this
    {
      forall p | p in strings :: p < next
    }

    constructor ()
      ensures Valid() && strings == map[]
    {
      strings, next := map[], 0;
    }

    method Strdup(text: string) returns (p: Pointer)
      requires Valid()
      modifies this
      ensures Valid()
      ensures p.None? ==> strings == old(strings)
      ensures p.Some? ==> p.value !in old(strings) && strings == old(strings)[p.value := text]
    {
      var fails: bool := *;
      if fails {
        return None;
      }
      p := Some(next);
      strings := strings[next := text];
      next := next + 1;
    }

    /** Freeing NULL does nothing; anything else has to be allocated, so nothing is freed twice. */
    method Free(p: Pointer)
      requires Valid()
      requires p.Some? ==> p.value in strings
      modifies this
      ensures Valid()
      ensures strings == if p.Some? then old(strings) - {p.value} else old(strings)
    {
      if p.Some? {
        strings := strings - {p.value};
      }
    }
  }

  /** `pointers` are distinct and are exactly what was allocated since `before`. */
  ghost predicate Owns(pointers: seq<Pointer>, strings: map<nat, string>, before: map<nat, string>) {
    && (forall i, j | 0 <= i < j < |pointers| && pointers[i].Some? :: pointers[i] != pointers[j])
    && (forall i | 0 <= i < |pointers| && pointers[i].Some? ::
          pointers[i].value in strings && pointers[i].value !in before)
    && (forall p | p in before :: p in strings && strings[p] == before[p])
    && (forall p | p in strings :: p in before || Some(p) in pointers)
  }

  /** `pointers` point to these texts, in this order. */
  ghost predicate PointTo(pointers: seq<Pointer>, strings: map<nat, string>, texts: seq<string>) {
    && |pointers| == |texts|
    && (forall i | 0 <= i < |texts| ::
          pointers[i].Some? && pointers[i].value in strings && strings[pointers[i].value] == texts[i])
  }

  lemma AllPointersSet(pointers: seq<Pointer>, strings: map<nat, string>, texts: seq<string>)
    requires PointTo(pointers, strings, texts)
    ensures forall i | 0 <= i < |pointers| :: pointers[i].Some?
  {
  }

  lemma OwnsNothing(strings: map<nat, string>)
    ensures Owns([], strings, strings) && PointTo([], strings, [])
  {
  }

  /** Appending a NULL, or a newly allocated string, keeps the ownership. */
  lemma OwnsOneMore(pointers: seq<Pointer>, strings: map<nat, string>, before: map<nat, string>, p: nat, text: string)
    requires Owns(pointers, strings, before) && p !in strings
    ensures Owns(pointers + [Some(p)], strings[p := text], before)
    ensures Owns(pointers + [None], strings, before)
  {
  }

  lemma PointToOneMore(pointers: seq<Pointer>, strings: map<nat, string>, texts: seq<string>, p: nat, text: string)
    requires PointTo(pointers, strings, texts) && p !in strings
    ensures PointTo(pointers + [Some(p)], strings[p := text], texts + [text])
  {
  }

  /** If it owns nothing but NULLs, the heap is as before. */
  lemma AllFreed(pointers: seq<Pointer>, strings: map<nat, string>, before: map<nat, string>)
    requires Owns(pointers, strings, before) && forall i | 0 <= i < |pointers| :: pointers[i].None?
    ensures strings == before
  {
  }

  lemma OwnsRest(pointers: seq<Pointer>, strings: map<nat, string>, before: map<nat, string>)
    requires |pointers| > 0 && Owns(pointers, strings, before)
    ensures Owns(pointers[1..], if pointers[0].Some? then strings - {pointers[0].value} else strings, before)
  {
    var strings' := if pointers[0].Some? then strings - {pointers[0].value} else strings;
    assert forall i | 0 <= i < |pointers| - 1 :: pointers[1..][i] == pointers[i + 1];
    forall p | p in strings' ensures p in before || Some(p) in pointers[1..] {
      if p !in before {
        assert Some(p) in pointers && Some(p) != pointers[0];
      }
    }
  }

  /** Frees `argv[from..to]`, in order, as both cleanup loops do. */
  method FreeEntries(heap: Heap, argv: array<Pointer>, to: nat, ghost before: map<nat, string>)
    requires heap.Valid() && to <= argv.Length && Owns(argv[..to], heap.strings, before)
    modifies heap
    ensures heap.Valid() && heap.strings == before
  {
    for i := 0 to to
      invariant heap.Valid() && Owns(argv[i..to], heap.strings, before)
    {
      OwnsRest(argv[i..to], heap.strings, before);
      assert argv[i..to][1..] == argv[i + 1..to];
      assert argv[i..to][0] == argv[i];
      heap.Free(argv[i]);
    }
  }

  class Builder {
    const heap: Heap
    var argv: array<Pointer>
    var argc: nat
    var capacity: nat
    ghost const before: map<nat, string> // what was allocated before the first push
    ghost var texts: seq<string>         // the strings pushed so far

    /** The cleanup can run: nothing is owned twice and nothing is lost. */
    ghost predicate Freeable()
      reads this, heap, argv
    {
      heap.Valid() && argc <= argv.Length && Owns(argv[..argc], heap.strings, before)
    }

    /** No push has failed; the array has room for the final NULL. */
    ghost predicate Valid()
      reads this, heap, argv
    {
      && Freeable() && PointTo(argv[..argc], heap.strings, texts)
      && capacity == argv.Length && 64 <= capacity && argc < capacity
    }

    constructor (heap: Heap)
      requires heap.Valid()
      ensures Valid() && fresh(argv) && this.heap == heap && before == heap.strings && texts == []
    {
      this.heap := heap;
      argv := new Pointer[64](_ => None);
      argc, capacity := 0, 64;
      before := heap.strings;
      texts := [];
      new;
      OwnsNothing(heap.strings);
      assert argv[..0] == [];
    }

    /** Doubles a full array, keeping a place for the final NULL. */
    method Grow() returns (r: Outcome)
      requires Valid()
      modifies this`argv, this`capacity
      ensures argv == old(argv) || fresh(argv)
      ensures Freeable() && argv[..argc] == old(argv[..argc])
      ensures r == Pass ==> Valid() && argc + 1 < capacity
    {
      if argc >= capacity - 1 {
        capacity := capacity * 2;
        var fails: bool := *;
        if fails {
          return Outcome.Fail;
        }
        argv := Reallocated(argv, argc, capacity);
      }
      return Pass;
    }

    /** PUSH: on failure the cleanup can still free everything. */
    method Push(text: string) returns (r: Outcome)
      requires Valid()
      modifies this, argv, heap
      ensures argv == old(argv) || fresh(argv)
      ensures r == Pass ==> Valid() && texts == old(texts) + [text]
      ensures r == Outcome.Fail ==> Freeable()
    {
      hide Owns, PointTo;
      var room := Grow();
      if room == Outcome.Fail {
        return room;
      }
      ghost var pointers, strings := argv[..argc], heap.strings;
      var p := heap.Strdup(text);
      argv[argc] := p;
      argc := argc + 1;
      assert argv[..argc] == pointers + [p];
      if p.None? {
        OwnsOneMore(pointers, strings, before, heap.next, text);
        return Outcome.Fail;
      }
      OwnsOneMore(pointers, strings, before, p.value, text);
      PointToOneMore(pointers, strings, texts, p.value, text);
      texts := texts + [text];
      return Pass;
    }

    /** Several PUSHes in a row. */
    method PushAll(words: seq<string>) returns (r: Outcome)
      requires Valid()
      modifies this, argv, heap
      ensures argv == old(argv) || fresh(argv)
      ensures r == Pass ==> Valid() && texts == old(texts) + words
      ensures r == Outcome.Fail ==> Freeable()
      decreases |words|
    {
      hide Owns, PointTo;
      if words == [] {
        return Pass;
      }
      :- Push(words[0]);
      :- PushAll(words[1..]);
      return Pass;
    }

    /** The final NULL. */
    method Finish()
      requires Valid()
      modifies argv
      ensures Terminated(argv, |texts|, heap.strings, before, texts)
    {
      ghost var pointers := argv[..argc];
      argv[argc] := None;
      assert argv[..argc] == pointers;
    }
  }

  /** A NULL-terminated vector that owns exactly what was allocated since `before`. */
  ghost predicate Terminated(argv: array<Pointer>, n: nat, strings: map<nat, string>, before: map<nat, string>,
                             texts: seq<string>)
    reads argv
  {
    && n < argv.Length && argv[n] == None
    && Owns(argv[..n], strings, before) && PointTo(argv[..n], strings, texts)
  }

  /** realloc that succeeds. */
  method Reallocated(argv: array<Pointer>, used: nat, capacity: nat) returns (tmp: array<Pointer>)
    requires used <= argv.Length <= capacity
    ensures fresh(tmp) && tmp.Length == capacity && tmp[..used] == argv[..used]
  {
    tmp := new Pointer[capacity](_ => None);
    forall i | 0 <= i < argv.Length {
      tmp[i] := argv[i];
    }
  }

  /** What is pushed for the extra bind paths; NULL entries are skipped. */
  method ExtraBinds(paths: seq<Option<string>>) returns (opts: seq<Opt>)
    ensures opts == ExtraOptions(paths)
  {
    opts := [];
    for i := 0 to |paths|
      invariant opts == ExtraOptions(paths[..i])
    {
      assert paths[..i + 1][..i] == paths[..i];
      if paths[i].Some? {
        opts := opts + [Bind(paths[i].value, paths[i].value)];
      }
    }
    assert paths[..|paths|] == paths;
  }

  /** The strings of a launch, in the order in which they are pushed. */
  method Words(l: Launch, command: string) returns (words: seq<string>)
    ensures words == Argv(Options(l), command)
  {
    var extra := ExtraBinds(if l.sandbox.Some? then l.sandbox.value.extraBindPaths else []);
    var opts := RootOptions(l) + RuntimeOptions(l) + WorkspaceOptions(l) + extra + NamespaceOptions(l)
                + EnvironmentOptions(l) + BusOptions(l) + DisplayOptions(l) + FINAL;
    words := ["bwrap"] + PrintAll(opts) + [END, "/bin/sh", "-c", command];
  }

  /** Pushes the strings into a new vector; either the whole vector is there, or every string that
      was pushed has been freed, once. */
  method BuildVector(heap: Heap, words: seq<string>) returns (result: array?<Pointer>)
    requires heap.Valid()
    modifies heap
    ensures heap.Valid() && (result != null ==> fresh(result))
    ensures result == null ==> heap.strings == old(heap.strings)
    ensures result != null ==> Terminated(result, |words|, heap.strings, old(heap.strings), words)
  {
    var noVector: bool := *;
    if noVector {
      return null;
    }
    var b := new Builder(heap);
    var pushed := b.PushAll(words);
    if pushed.Fail? {
      FreeEntries(heap, b.argv, b.argc, b.before);
      return null;
    }
    assert b.texts == words;
    b.Finish();
    return b.argv;
  }

  /** `command` is None for a null pointer. */
  method BuildArgs(heap: Heap, l: Launch, command: Option<string>) returns (result: array?<Pointer>)
    requires heap.Valid()
    modifies heap
    ensures heap.Valid() && (result != null ==> fresh(result))
    ensures result == null ==> heap.strings == old(heap.strings)
    ensures result != null ==> command.Some?
    ensures result != null ==>
      var words := Argv(Options(l), command.value);
      Terminated(result, |words|, heap.strings, old(heap.strings), words)
  {
    if command.None? {
      return null;
    }
    var words := Words(l, command.value);
    result := BuildVector(heap, words);
  }

  lemma TerminatedParts(argv: array<Pointer>, n: nat, strings: map<nat, string>, before: map<nat, string>,
                        texts: seq<string>)
    requires Terminated(argv, n, strings, before, texts)
    ensures n < argv.Length && argv[n] == None && Owns(argv[0..n], strings, before)
    ensures forall k | 0 <= k < n :: argv[k].Some?
  {
    hide Owns;
    AllPointersSet(argv[..n], strings, texts);
    assert argv[0..n] == argv[..n];
    assert forall k | 0 <= k < n :: argv[k] == argv[..n][k];
  }

  /** Frees the entries up to the first NULL: the heap is as it was before the vector was built.  A null
      vector, as a failed build returns it, is accepted and nothing is freed. */
  method FreeArgs(heap: Heap, argv: array?<Pointer>, ghost n: nat, ghost before: map<nat, string>,
                  ghost texts: seq<string>)
    requires heap.Valid()
    requires argv != null ==> Terminated(argv, n, heap.strings, before, texts)
    modifies heap
    ensures heap.Valid() && heap.strings == if argv == null then old(heap.strings) else before
  {
    if argv == null {
      return;
    }
    TerminatedParts(argv, n, heap.strings, before, texts);
    hide Owns, PointTo, Terminated;
    var i := 0;
    while argv[i].Some?
      invariant i <= n && heap.Valid() && Owns(argv[i..n], heap.strings, before)
      invariant forall k | i <= k < n :: argv[k].Some?
      decreases n - i
    {
      OwnsRest(argv[i..n], heap.strings, before);
      assert argv[i..n][1..] == argv[i + 1..n];
      assert argv[i..n][0] == argv[i];
      heap.Free(argv[i]);
      i := i + 1;
    }
    assert i == n;
    assert argv[n..n] == [];
    AllFreed(argv[n..n], heap.strings, before);
  }
}
