/** Facts about sequences that the verifier needs to be told, stated once. */
module Sequences {

  lemma Regroup<T>(a: seq<T>, b: seq<T>, c: seq<T>)
    ensures a + (b + c) == (a + b) + c
  {
  }

  /** Two ways to split the same tail. */
  lemma RegroupTail<T>(a: seq<T>, b: seq<T>, c: seq<T>, d: seq<T>, e: seq<T>)
    requires b + c == d + e
    ensures (a + b) + c == (a + d) + e
  {
    Regroup(a, b, c);
    Regroup(a, d, e);
  }

  lemma FourInARow<T>(s: seq<T>, a: seq<T>, b: seq<T>, c: seq<T>, d: seq<T>)
    ensures s + a + b + c + d == s + (a + b + c + d)
  {
  }

  lemma TakeOut<T>(a: seq<T>, x: T, b: seq<T>)
    ensures var s := a + [x] + b;
      s[|a|] == x && s[..|a|] + s[|a| + 1..] == a + ([] + b) && s == a + ([x] + b)
  {
  }

  lemma CutInside<T>(a: seq<T>, b: seq<T>, i: nat)
    requires i < |a|
    ensures (a + b)[..i] == a[..i] && (a + b)[i] == a[i] && (a + b)[i + 1..] == a[i + 1..] + b
  {
  }

  lemma EditFront<T>(a: seq<T>, b: seq<T>, at: int, x: T)
    requires at < |a|
    ensures at >= 0 ==> (a + b)[at := x] == a[at := x] + b
    ensures (a + b) + [x] == a + (b + [x])
  {
  }
}
