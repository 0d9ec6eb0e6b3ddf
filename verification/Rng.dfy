/**
 The random number generator: the words of a xoshiro256** state, seeded by four outputs of SplitMix64. All
 arithmetic is on 64-bit words and wraps around.
 */
module Rng {

  import Indexing

  type Word = bv64

  // ----- SplitMix64: an output mixing of five steps, each with its inverse -----

  function Shift30(z: Word): Word { z ^ (z >> 30) }
  function Unshift30(y: Word): Word { y ^ (y >> 30) ^ (y >> 60) }
  function Shift27(z: Word): Word { z ^ (z >> 27) }
  function Unshift27(y: Word): Word { y ^ (y >> 27) ^ (y >> 54) }
  function Shift31(z: Word): Word { z ^ (z >> 31) }
  function Unshift31(y: Word): Word { y ^ (y >> 31) ^ (y >> 62) }
  function Scale1(z: Word): Word { z * 0xbf58476d1ce4e5b9 }
  function Unscale1(y: Word): Word { y * 0x96de1b173f119089 }
  function Scale2(z: Word): Word { z * 0x94d049bb133111eb }
  function Unscale2(y: Word): Word { y * 0x319642b2d24d8ec3 }

  function Mix(z: Word): Word {
    Shift31(Scale2(Shift27(Scale1(Shift30(z)))))
  }

  function Unmix(r: Word): Word {
    Unshift30(Unscale1(Unshift27(Unscale2(Unshift31(r)))))
  }

  // Each identity below is first stated on a spelt-out word, where it is plain arithmetic on words.

  lemma UndoFacts(z: Word)
    ensures Unshift30(z ^ (z >> 30)) == z && Unshift27(z ^ (z >> 27)) == z && Unshift31(z ^ (z >> 31)) == z
    ensures Unscale1(z * 0xbf58476d1ce4e5b9) == z && Unscale2(z * 0x94d049bb133111eb) == z
  {
  }

  lemma RedoFacts(z: Word)
    ensures Shift30(z ^ (z >> 30) ^ (z >> 60)) == z && Shift27(z ^ (z >> 27) ^ (z >> 54)) == z
    ensures Shift31(z ^ (z >> 31) ^ (z >> 62)) == z
    ensures Scale1(z * 0x96de1b173f119089) == z && Scale2(z * 0x319642b2d24d8ec3) == z
  {
  }

  lemma StepsUndo(z: Word)
    ensures Unshift30(Shift30(z)) == z && Unshift27(Shift27(z)) == z && Unshift31(Shift31(z)) == z
    ensures Unscale1(Scale1(z)) == z && Unscale2(Scale2(z)) == z
  {
    hide Unshift30, Unshift27, Unshift31, Unscale1, Unscale2;
    UndoFacts(z);
  }

  lemma StepsRedo(z: Word)
    ensures Shift30(Unshift30(z)) == z && Shift27(Unshift27(z)) == z && Shift31(Unshift31(z)) == z
    ensures Scale1(Unscale1(z)) == z && Scale2(Unscale2(z)) == z
  {
    hide Shift30, Shift27, Shift31, Scale1, Scale2;
    RedoFacts(z);
  }

  /** The mixing is a bijection of the 64-bit words. */
  lemma MixIsBijective(z: Word)
    ensures Unmix(Mix(z)) == z && Mix(Unmix(z)) == z
  {
    hide Shift30, Unshift30, Shift27, Unshift27, Shift31, Unshift31, Scale1, Unscale1, Scale2, Unscale2;
    StepsUndo(z);
    StepsUndo(Shift30(z));
    StepsUndo(Scale1(Shift30(z)));
    StepsUndo(Shift27(Scale1(Shift30(z))));
    StepsUndo(Scale2(Shift27(Scale1(Shift30(z)))));
    StepsRedo(z);
    StepsRedo(Unshift31(z));
    StepsRedo(Unscale2(Unshift31(z)));
    StepsRedo(Unshift27(Unscale2(Unshift31(z))));
    StepsRedo(Unscale1(Unshift27(Unscale2(Unshift31(z)))));
  }

  // ----- xoshiro256** -----

  datatype State = Words(s0: Word, s1: Word, s2: Word, s3: Word)

  const ZERO := Words(0, 0, 0, 0)

  /** The counter of SplitMix64 moves on before each draw. */
  function Advance(counter: Word): Word { counter + 0x9e3779b97f4a7c15 }
  function Retreat(counter: Word): Word { counter - 0x9e3779b97f4a7c15 }

  /** rng_seed: four draws of SplitMix64. */
  function Seeded(seed: Word): State {
    var c1 := Advance(seed);
    var c2 := Advance(c1);
    var c3 := Advance(c2);
    Words(Mix(c1), Mix(c2), Mix(c3), Mix(Advance(c3)))
  }

  // The operations on words, named so that proofs about states need not look inside them.

  function Xor(a: Word, b: Word): Word { a ^ b }
  function ShiftLeft17(x: Word): Word { x << 17 }
  function Shift17(x: Word): Word { x ^ (x << 17) }
  function Unshift17(y: Word): Word { y ^ (y << 17) ^ (y << 34) ^ (y << 51) }
  function RotateLeft45(x: Word): Word { (x << 45) | (x >> 19) }
  function RotateRight45(x: Word): Word { (x >> 45) | (x << 19) }
  function RotateLeft7(x: Word): Word { (x << 7) | (x >> 57) }
  function RotateRight7(x: Word): Word { (x >> 7) | (x << 57) }
  function Times5(x: Word): Word { x * 5 }
  function Times9(x: Word): Word { x * 9 }
  function Divide5(x: Word): Word { x * 0xcccccccccccccccd }
  function Divide9(x: Word): Word { x * 0x8e38e38e38e38e39 }

  /** The step of the state: its updates in turn. */
  function Next(s: State): State {
    var t := ShiftLeft17(s.s1);
    var s2 := Xor(s.s2, s.s0);
    var s3 := Xor(s.s3, s.s1);
    var s1 := Xor(s.s1, s2);
    var s0 := Xor(s.s0, s3);
    Words(s0, s1, Xor(s2, t), RotateLeft45(s3))
  }

  /** The draw that a state gives. */
  function Output(s: State): Word {
    Times9(RotateLeft7(Times5(s.s1)))
  }

  /** The published first draws of xoshiro256** from the state 1, 2, 3, 4. */
  lemma FirstDraws()
    ensures Output(Words(1, 2, 3, 4)) == 11520
    ensures Output(Next(Words(1, 2, 3, 4))) == 0
    ensures Output(Next(Next(Words(1, 2, 3, 4)))) == 1509978240
    ensures Output(Next(Next(Next(Words(1, 2, 3, 4))))) == 1215971899390074240
  {
    assert Next(Words(1, 2, 3, 4)) == Words(7, 0, 262146, 211106232532992);
  }

  /** The published first draws of SplitMix64 from the seed 1234567. */
  lemma FirstMixes()
    ensures Seeded(1234567)
         == Words(6457827717110365317, 3203168211198807973, 9817491932198370423, 4593380528125082431)
  {
  }

  function XorStates(a: State, b: State): State {
    Words(Xor(a.s0, b.s0), Xor(a.s1, b.s1), Xor(a.s2, b.s2), Xor(a.s3, b.s3))
  }

  /** The step is linear over exclusive or, so its images of the 256 single bits determine it. */
  lemma NextIsLinear(a: State, b: State)
    ensures Next(XorStates(a, b)) == XorStates(Next(a), Next(b))
  {
    hide Xor, ShiftLeft17, RotateLeft45;
    XorExchanges(a.s2, b.s2, a.s0, b.s0);
    XorExchanges(a.s3, b.s3, a.s1, b.s1);
    XorExchanges(a.s1, b.s1, Xor(a.s2, a.s0), Xor(b.s2, b.s0));
    XorExchanges(a.s0, b.s0, Xor(a.s3, a.s1), Xor(b.s3, b.s1));
    ShiftsAreLinear(a.s1, b.s1);
    ShiftsAreLinear(Xor(a.s3, a.s1), Xor(b.s3, b.s1));
    XorExchanges(Xor(a.s2, a.s0), Xor(b.s2, b.s0), ShiftLeft17(a.s1), ShiftLeft17(b.s1));
  }

  lemma XorExchanges(a: Word, b: Word, c: Word, d: Word)
    ensures Xor(Xor(a, b), Xor(c, d)) == Xor(Xor(a, c), Xor(b, d))
  {
    hide Xor;
    XorAssociates(a, b, Xor(c, d));
    XorAssociates(b, c, d);
    XorSwaps(b, c);
    XorAssociates(c, b, d);
    XorAssociates(a, c, Xor(b, d));
  }

  lemma XorAssociates(a: Word, b: Word, c: Word)
    ensures Xor(Xor(a, b), c) == Xor(a, Xor(b, c))
  {
  }

  lemma ShiftsAreLinear(a: Word, b: Word)
    ensures ShiftLeft17(Xor(a, b)) == Xor(ShiftLeft17(a), ShiftLeft17(b))
    ensures RotateLeft45(Xor(a, b)) == Xor(RotateLeft45(a), RotateLeft45(b))
  {
  }

  /** The state before the step. */
  function Previous(s: State): State {
    var s3 := RotateRight45(s.s3);
    var s0 := Xor(s.s0, s3);
    var s1 := Unshift17(Xor(s.s1, s.s2));
    var s2 := Xor(s.s1, s1);
    Words(s0, s1, Xor(s2, s0), Xor(s3, s1))
  }

  /** The second word that gives a draw. */
  function SecondWord(output: Word): Word {
    Divide5(RotateRight7(Divide9(output)))
  }

  lemma XorSwaps(a: Word, b: Word)
    ensures Xor(a, b) == Xor(b, a)
  {
  }

  lemma XorCancels(a: Word, b: Word)
    ensures Xor(Xor(a, b), b) == a
  {
  }

  lemma XorJoins(a: Word, b: Word, c: Word)
    ensures Xor(Xor(a, b), Xor(b, c)) == Xor(a, c)
  {
  }

  /** The third word, from the second and what the two made together. */
  lemma XorRest(a: Word, b: Word, x: Word, t: Word)
    requires Xor(x, t) == Xor(a, b)
    ensures Xor(Xor(a, x), t) == b
  {
    hide Xor;
    XorJoins(a, x, Xor(a, b));
    XorSwaps(x, t);
    XorCancels(t, x);
    XorSwaps(Xor(t, x), x);
    XorSwaps(a, b);
    XorCancels(b, a);
    XorSwaps(Xor(b, a), a);
  }

  lemma Shift17Fact(x: Word)
    ensures Xor(x, x << 17) == Shift17(x)
  {
  }

  lemma Shift17IsXor(x: Word)
    ensures Xor(x, ShiftLeft17(x)) == Shift17(x)
  {
    hide Xor, Shift17;
    Shift17Fact(x);
  }

  lemma WordUndoFacts(x: Word)
    ensures Unshift17(x ^ (x << 17)) == x
    ensures RotateRight45((x << 45) | (x >> 19)) == x && RotateRight7((x << 7) | (x >> 57)) == x
    ensures Divide5(x * 5) == x && Divide9(x * 9) == x
  {
  }

  lemma WordRedoFacts(y: Word)
    ensures Shift17(y ^ (y << 17) ^ (y << 34) ^ (y << 51)) == y && RotateLeft45((y >> 45) | (y << 19)) == y
  {
  }

  lemma WordsUndo(x: Word)
    ensures Unshift17(Shift17(x)) == x && RotateRight45(RotateLeft45(x)) == x
    ensures RotateRight7(RotateLeft7(x)) == x && Divide5(Times5(x)) == x && Divide9(Times9(x)) == x
  {
    hide Unshift17, RotateRight45, RotateRight7, Divide5, Divide9;
    WordUndoFacts(x);
  }

  lemma WordsRedo(y: Word)
    ensures Shift17(Unshift17(y)) == y && RotateLeft45(RotateRight45(y)) == y
  {
    hide Shift17, RotateLeft45;
    WordRedoFacts(y);
  }

  lemma PreviousUndoesNext(s: State)
    ensures Previous(Next(s)) == s
  {
    hide Xor, ShiftLeft17, Shift17, Unshift17, RotateLeft45, RotateRight45;
    var t, s2, s3 := ShiftLeft17(s.s1), Xor(s.s2, s.s0), Xor(s.s3, s.s1);
    WordsUndo(s3);
    XorCancels(s.s0, s3);
    XorJoins(s.s1, s2, t);
    Shift17IsXor(s.s1);
    WordsUndo(s.s1);
    XorSwaps(s.s1, s2);
    XorCancels(s2, s.s1);
    XorCancels(s.s2, s.s0);
    XorCancels(s.s3, s.s1);
  }

  lemma NextUndoesPrevious(s: State)
    ensures Next(Previous(s)) == s
  {
    hide Xor, ShiftLeft17, Shift17, Unshift17, RotateLeft45, RotateRight45;
    var s3, s1 := RotateRight45(s.s3), Unshift17(Xor(s.s1, s.s2));
    var s0, s2 := Xor(s.s0, s3), Xor(s.s1, s1);
    XorCancels(s2, s0);
    XorCancels(s3, s1);
    XorCancels(s.s0, s3);
    XorSwaps(s1, s2);
    XorCancels(s.s1, s1);
    WordsRedo(s.s3);
    WordsRedo(Xor(s.s1, s.s2));
    Shift17IsXor(s1);
    XorRest(s.s1, s.s2, s1, ShiftLeft17(s1));
  }

  lemma NextIsInjective(a: State, b: State)
    ensures Next(a) == Next(b) <==> a == b
  {
    hide Next, Previous;
    PreviousUndoesNext(a);
    PreviousUndoesNext(b);
  }

  /** The state after n draws. */
  function Run(s: State, n: nat): State {
    if n == 0 then s else Next(Run(s, n - 1))
  }

  lemma {:induction false} RunsStayApart(a: State, b: State, n: nat)
    ensures Run(a, n) == Run(b, n) <==> a == b
  {
    if n > 0 {
      hide Next;
      RunsStayApart(a, b, n - 1);
      NextIsInjective(Run(a, n - 1), Run(b, n - 1));
    }
  }

  lemma {:induction false} RunAdds(s: State, i: nat, j: nat)
    ensures Run(s, i + j) == Run(Run(s, j), i)
  {
    if i > 0 {
      hide Next;
      RunAdds(s, i - 1, j);
    }
  }

  /** The first state to come back is the first: no run ends up in a cycle that it did not start in. */
  lemma FirstStateRepeatsFirst(s: State, i: nat, j: nat)
    requires Run(s, i) == Run(s, i + j)
    ensures Run(s, j) == s
  {
    hide Run;
    RunAdds(s, i, j);
    RunsStayApart(Run(s, j), s, i);
  }

  // ----- What seeding guarantees -----

  lemma AdvanceRetreats(c: Word)
    ensures Retreat(Advance(c)) == c
  {
  }

  lemma CountersDiffer(c: Word)
    ensures Advance(c) != c && Advance(Advance(c)) != c && Advance(Advance(Advance(c))) != c
  {
  }

  lemma MixIsInjective(a: Word, b: Word)
    ensures Mix(a) == Mix(b) <==> a == b
  {
    hide Mix, Unmix;
    MixIsBijective(a);
    MixIsBijective(b);
  }

  /** The four words of a seeded state are pairwise different. */
  lemma SeedWordsDiffer(seed: Word)
    ensures var s := Seeded(seed);
      s.s0 != s.s1 && s.s0 != s.s2 && s.s0 != s.s3 && s.s1 != s.s2 && s.s1 != s.s3 && s.s2 != s.s3
  {
    hide Mix, Advance;
    var c1 := Advance(seed);
    var c2 := Advance(c1);
    var c3 := Advance(c2);
    var c4 := Advance(c3);
    CountersDiffer(c1);
    CountersDiffer(c2);
    CountersDiffer(c3);
    MixIsInjective(c1, c2);
    MixIsInjective(c1, c3);
    MixIsInjective(c1, c4);
    MixIsInjective(c2, c3);
    MixIsInjective(c2, c4);
    MixIsInjective(c3, c4);
  }

  lemma SeedingIsInjective(a: Word, b: Word)
    ensures Seeded(a) == Seeded(b) <==> a == b
  {
    hide Mix, Advance, Retreat;
    MixIsInjective(Advance(a), Advance(b));
    AdvanceRetreats(a);
    AdvanceRetreats(b);
  }

  lemma ZeroIsFixed()
    ensures Next(ZERO) == ZERO
  {
  }

  lemma {:induction false} ZeroStaysZero(n: nat)
    ensures Run(ZERO, n) == ZERO
  {
    if n > 0 {
      hide Next;
      ZeroStaysZero(n - 1);
      ZeroIsFixed();
    }
  }

  /** From whatever seed, no number of draws reaches the all-zero state, in which the generator would be stuck. */
  lemma NeverZero(seed: Word, n: nat)
    ensures Run(Seeded(seed), n) != ZERO
  {
    hide Run, Seeded;
    SeedWordsDiffer(seed);
    ZeroStaysZero(n);
    RunsStayApart(Seeded(seed), ZERO, n);
  }

  /** Two generators are in the same state after equally many draws exactly when they had the same seed. */
  lemma SeedsNeverMeet(a: Word, b: Word, n: nat)
    ensures Run(Seeded(a), n) == Run(Seeded(b), n) <==> a == b
  {
    hide Run, Seeded;
    SeedingIsInjective(a, b);
    RunsStayApart(Seeded(a), Seeded(b), n);
  }

  /** A draw gives the second word away: two states give the same draw exactly when they agree on it. */
  lemma DrawsAgreeIff(a: State, b: State)
    ensures Output(a) == Output(b) <==> a.s1 == b.s1
  {
    SecondWordIsDrawn(a);
    SecondWordIsDrawn(b);
  }

  lemma SecondWordIsDrawn(s: State)
    ensures SecondWord(Output(s)) == s.s1
  {
    hide Times5, Times9, Divide5, Divide9, RotateLeft7, RotateRight7;
    WordsUndo(s.s1);
    WordsUndo(Times5(s.s1));
    WordsUndo(RotateLeft7(Times5(s.s1)));
  }

  // ----- The generator as the program changes it -----

  const TWO_TO_53 := 9007199254740992.0

  /** The draw as a fraction of 2^64, cut to its upper 53 bits. */
  ghost predicate IsFraction(r: real, draw: nat) {
    && r * TWO_TO_53 == (r * TWO_TO_53).Floor as real
    && 0 <= draw - (r * TWO_TO_53).Floor * 2048 < 2048
  }

  function UpperBits(draw: nat): (r: real)
    requires draw < 0x1_0000_0000_0000_0000
    ensures 0.0 <= r < 1.0 && IsFraction(r, draw)
  {
    var upper := draw / 2048;
    var r := upper as real / TWO_TO_53;
    assert r * TWO_TO_53 == upper as real;
    r
  }

  /** rng_double: a multiple of 2^-53, and the draw is less than 2^11 above it. */
  function Fraction(draw: Word): (r: real)
    ensures 0.0 <= r < 1.0 && IsFraction(r, draw as int)
  {
    hide IsFraction, UpperBits;
    UpperBits(draw as int)
  }

  class RNG {
    const s: array<Word>

    ghost predicate Valid()
      reads this, s
    {
      s.Length == 4
    }

    ghost function State(): State
      requires Valid()
      reads this, s
    {
      Words(s[0], s[1], s[2], s[3])
    }

    /** rng_seed */
    constructor (seed: Word)
      ensures Valid() && fresh(s) && State() == Seeded(seed)
    {
      s := new Word[4];
      new;
      hide Mix, Advance;
      var sm, word := SplitMix(seed);
      s[0] := word;
      sm, word := SplitMix(sm);
      s[1] := word;
      sm, word := SplitMix(sm);
      s[2] := word;
      sm, word := SplitMix(sm);
      s[3] := word;
    }

    /** splitmix64: the counter after the draw, and the draw. */
    static method SplitMix(counter: Word) returns (moved: Word, word: Word)
      ensures moved == Advance(counter) && word == Mix(moved)
    {
      moved := Advance(counter);
      var z := Scale1(Shift30(moved));
      z := Scale2(Shift27(z));
      word := Shift31(z);
    }

    /** rng_next */
    method Draw() returns (result: Word)
      requires Valid()
      modifies s
      ensures Valid() && State() == Next(old(State())) && result == Output(old(State()))
    {
      hide Xor, ShiftLeft17, RotateLeft45, Times5, Times9, RotateLeft7;
      result := Times9(RotateLeft7(Times5(s[1])));
      var t := ShiftLeft17(s[1]);
      s[2] := Xor(s[2], s[0]);
      s[3] := Xor(s[3], s[1]);
      s[1] := Xor(s[1], s[2]);
      s[0] := Xor(s[0], s[3]);
      s[2] := Xor(s[2], t);
      s[3] := RotateLeft45(s[3]);
    }

    /** rng_double */
    method Double() returns (r: real)
      requires Valid()
      modifies s
      ensures Valid() && State() == Next(old(State())) && r == Fraction(Output(old(State())))
    {
      hide Next, Output, Fraction;
      var draw := Draw();
      r := Fraction(draw);
    }

    /** rng_int, where the range fits the integer type: an empty range draws nothing. */
    method Int(lo: int, hi: int) returns (r: int)
      requires Valid() && hi - lo < 0x8000_0000
      modifies s
      ensures Valid()
      ensures lo >= hi ==> r == lo && State() == old(State())
      ensures lo < hi ==> lo <= r <= hi && State() == Next(old(State()))
      ensures lo < hi ==> r == Indexing.IntInRange(lo, hi, Output(old(State())) as int)
    {
      hide Next, Output;
      if lo >= hi {
        return lo;
      }
      var draw := Draw();
      r := Indexing.IntInRange(lo, hi, draw as int);
    }
  }
}
