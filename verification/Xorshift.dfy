/** The xorshift128 generator of watermark.c, as algebra over the field of two elements.

    Facts about bits are stated first on bare expressions, where the solver decides them
    at once, and then carried over to the named functions. */
module Xorshift {
  type Word = bv32

  datatype State = State(s0: Word, s1: Word, s2: Word, s3: Word)

  const ZERO := State(0, 0, 0, 0)

  function Plus(a: Word, b: Word): Word { a ^ b }

  function Left(t: Word): Word { t ^ (t << 11) }
  function Right(t: Word): Word { t ^ (t >> 8) }
  function Mix(t: Word, s0: Word): Word { t ^ s0 ^ (s0 >> 19) }

  /** The state after one draw; the draw itself is the new `s0`. */
  function Next(s: State): State {
    State(Mix(Right(Left(s.s3)), s.s0), s.s0, s.s1, s.s2)
  }

  function Unleft(u: Word): Word { u ^ (u << 11) ^ (u << 22) }
  function Unright(u: Word): Word { u ^ (u >> 8) ^ (u >> 16) ^ (u >> 24) }

  function Previous(s: State): State {
    State(s.s1, s.s2, s.s3, Unleft(Unright(Mix(s.s0, s.s1))))
  }

  /** Exclusive-or of whole states. */
  function Sum(a: State, b: State): State {
    State(Plus(a.s0, b.s0), Plus(a.s1, b.s1), Plus(a.s2, b.s2), Plus(a.s3, b.s3))
  }

  class Xorshift128 {
    const s: array<Word>

    function Value(): State
      requires s.Length == 4
      reads s
    {
      State(s[0], s[1], s[2], s[3])
    }

    constructor (seed: State)
      ensures s.Length == 4 && fresh(s)
      ensures Value() == seed
    {
      s := new Word[4];
      new;
      s[0], s[1], s[2], s[3] := seed.s0, seed.s1, seed.s2, seed.s3;
    }

    method Draw() returns (t: Word)
      requires s.Length == 4
      modifies s
      ensures Value() == Next(old(Value()))
      ensures t == Value().s0
    {
      t := s[3];
      t := Left(t);
      t := Right(t);
      s[3] := s[2];
      s[2] := s[1];
      s[1] := s[0];
      t := Mix(t, s[0]);
      s[0] := t;
    }
  }

  // ---- facts about bits ----

  lemma LeftBits(t: Word, a: Word, b: Word)
    ensures (t ^ (t << 11)) ^ ((t ^ (t << 11)) << 11) ^ ((t ^ (t << 11)) << 22) == t
    ensures (t ^ (t << 11) ^ (t << 22)) ^ ((t ^ (t << 11) ^ (t << 22)) << 11) == t
    ensures (a ^ b) ^ ((a ^ b) << 11) == (a ^ (a << 11)) ^ (b ^ (b << 11))
  {
  }

  lemma RightBits(t: Word, a: Word, b: Word)
    ensures (t ^ (t >> 8)) ^ ((t ^ (t >> 8)) >> 8) ^ ((t ^ (t >> 8)) >> 16) ^ ((t ^ (t >> 8)) >> 24) == t
    ensures (t ^ (t >> 8) ^ (t >> 16) ^ (t >> 24)) ^ ((t ^ (t >> 8) ^ (t >> 16) ^ (t >> 24)) >> 8) == t
    ensures (a ^ b) ^ ((a ^ b) >> 8) == (a ^ (a >> 8)) ^ (b ^ (b >> 8))
  {
  }

  lemma MixBits(p: Word, a: Word, q: Word, b: Word)
    ensures (p ^ a ^ (a >> 19)) ^ a ^ (a >> 19) == p
    ensures (p ^ q) ^ (a ^ b) ^ ((a ^ b) >> 19) == (p ^ a ^ (a >> 19)) ^ (q ^ b ^ (b >> 19))
  {
  }

  lemma PlusIsZero(a: Word, b: Word)
    ensures Plus(a, b) == 0 <==> a == b
  {
    PlusTwice(a, b);
    assert Plus(0, b) == b && Plus(b, b) == 0;
  }

  lemma PlusTwice(a: Word, b: Word)
    ensures (a ^ b) ^ b == a
  {
  }

  lemma PlusCancels(a: Word, b: Word, c: Word)
    requires Plus(a, b) == Plus(a, c) || Plus(b, a) == Plus(c, a)
    ensures b == c
  {
    PlusTwice(b, a);
    PlusTwice(c, a);
    assert a ^ b == b ^ a && a ^ c == c ^ a;
  }

  // ---- the named functions ----

  lemma LeftInverse(t: Word)
    ensures Unleft(Left(t)) == t
    ensures Left(Unleft(t)) == t
  {
    LeftBits(t, t, t);
    assert Unleft(t ^ (t << 11)) == t;
    assert Left(t ^ (t << 11) ^ (t << 22)) == t;
  }

  lemma RightInverse(t: Word)
    ensures Unright(Right(t)) == t
    ensures Right(Unright(t)) == t
  {
    RightBits(t, t, t);
    assert Unright(t ^ (t >> 8)) == t;
    assert Right(t ^ (t >> 8) ^ (t >> 16) ^ (t >> 24)) == t;
  }

  lemma MixInverse(t: Word, s0: Word)
    ensures Mix(Mix(t, s0), s0) == t
  {
    MixBits(t, s0, t, s0);
    assert Mix(t ^ s0 ^ (s0 >> 19), s0) == t;
  }

  lemma LeftLinear(a: Word, b: Word)
    ensures Left(Plus(a, b)) == Plus(Left(a), Left(b))
  {
    LeftBits(a, a, b);
    assert Left(a ^ b) == Plus(a ^ (a << 11), b ^ (b << 11));
  }

  lemma RightLinear(a: Word, b: Word)
    ensures Right(Plus(a, b)) == Plus(Right(a), Right(b))
  {
    RightBits(a, a, b);
    assert Right(a ^ b) == Plus(a ^ (a >> 8), b ^ (b >> 8));
  }

  lemma MixLinear(p: Word, a: Word, q: Word, b: Word)
    ensures Mix(Plus(p, q), Plus(a, b)) == Plus(Mix(p, a), Mix(q, b))
  {
    MixBits(p, a, q, b);
    assert Mix(p ^ q, a ^ b) == Plus(p ^ a ^ (a >> 19), q ^ b ^ (b >> 19));
  }

  // ---- one draw ----

  /** A draw is a permutation of the 2^128 states. */
  lemma NextInverse(s: State)
    ensures Previous(Next(s)) == s
    ensures Next(Previous(s)) == s
  {
    var t := Right(Left(s.s3));
    MixInverse(t, s.s0);
    RightInverse(Left(s.s3));
    LeftInverse(s.s3);
    var m := Mix(s.s0, s.s1);
    LeftInverse(Unright(m));
    RightInverse(m);
    MixInverse(s.s0, s.s1);
  }

  /** A draw is linear over exclusive-or. */
  lemma NextLinear(a: State, b: State)
    ensures Next(Sum(a, b)) == Sum(Next(a), Next(b))
  {
    LeftLinear(a.s3, b.s3);
    RightLinear(Left(a.s3), Left(b.s3));
    MixLinear(Right(Left(a.s3)), a.s0, Right(Left(b.s3)), b.s0);
  }

  lemma ZeroIsFixed()
    ensures Next(ZERO) == ZERO && Previous(ZERO) == ZERO
  {
    assert Left(0) == 0 && Right(0) == 0 && Mix(0, 0) == 0;
    NextInverse(ZERO);
  }

  // ---- any number of draws ----

  function After(seed: State, n: nat): State {
    if n == 0 then seed else Next(After(seed, n - 1))
  }

  /** The zero state is reached from itself and from nowhere else, after any number of draws. */
  lemma {:induction false} ZeroOnlyFromZero(seed: State, n: nat)
    ensures After(seed, n) == ZERO <==> seed == ZERO
  {
    if n > 0 {
      ZeroOnlyFromZero(seed, n - 1);
      NextInverse(After(seed, n - 1));
      ZeroIsFixed();
    }
  }

  /** The runs from two seeds differ, after every draw, by the run from their difference. */
  lemma {:induction false} AfterLinear(a: State, b: State, n: nat)
    ensures After(Sum(a, b), n) == Sum(After(a, n), After(b, n))
  {
    if n > 0 {
      AfterLinear(a, b, n - 1);
      NextLinear(After(a, n - 1), After(b, n - 1));
    }
  }

  lemma SumIsZero(a: State, b: State)
    ensures Sum(a, b) == ZERO <==> a == b
  {
    PlusIsZero(a.s0, b.s0);
    PlusIsZero(a.s1, b.s1);
    PlusIsZero(a.s2, b.s2);
    PlusIsZero(a.s3, b.s3);
  }

  lemma SumCancels(a: State, b: State, c: State)
    requires Sum(a, b) == Sum(a, c) || Sum(b, a) == Sum(c, a)
    ensures b == c
  {
    PlusCancels(a.s0, b.s0, c.s0);
    PlusCancels(a.s1, b.s1, c.s1);
    PlusCancels(a.s2, b.s2, c.s2);
    PlusCancels(a.s3, b.s3, c.s3);
  }

  /** Runs from different seeds never meet. */
  lemma SeedsNeverMeet(a: State, b: State, n: nat)
    ensures After(a, n) == After(b, n) <==> a == b
  {
    AfterLinear(a, b, n);
    SumIsZero(After(a, n), After(b, n));
    SumIsZero(a, b);
    ZeroOnlyFromZero(Sum(a, b), n);
  }

  function Draw(seed: State, k: nat): Word {
    After(seed, k + 1).s0
  }

  /** No four draws in a row are all zero, except from the zero seed. */
  lemma FourZeroDraws(seed: State, n: nat)
    ensures Draw(seed, n) == Draw(seed, n + 1) == Draw(seed, n + 2) == Draw(seed, n + 3) == 0 <==> seed == ZERO
  {
    ZeroOnlyFromZero(seed, n + 4);
    assert After(seed, n + 4).s1 == Draw(seed, n + 2);
    assert After(seed, n + 4).s2 == After(seed, n + 3).s1 == Draw(seed, n + 1);
    assert After(seed, n + 4).s3 == After(seed, n + 3).s2 == After(seed, n + 2).s1 == Draw(seed, n);
  }

  /** Known answers: the first draws from the words 1, 2, 3, 4, and one in which every shift shows. */
  lemma KnownDraws()
    ensures Draw(State(1, 2, 3, 4), 0) == 0x2025
    ensures Draw(State(1, 2, 3, 4), 1) == 0x383e
    ensures Draw(State(1, 2, 3, 4), 2) == 0x282c
    ensures Draw(State(0x8000_0000, 2, 3, 4), 0) == 0x8000_3024
  {
    assert Next(State(1, 2, 3, 4)) == State(0x2025, 1, 2, 3);
    assert Next(State(0x2025, 1, 2, 3)) == State(0x383e, 0x2025, 1, 2);
    assert Next(State(0x383e, 0x2025, 1, 2)) == State(0x282c, 0x383e, 0x2025, 1);
    assert Next(State(0x8000_0000, 2, 3, 4)) == State(0x8000_3024, 0x8000_0000, 2, 3);
  }
}
