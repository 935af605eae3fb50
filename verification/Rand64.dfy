/** The thread-local xorshift generator behind the spin jitter. */
module Rand64 {
  import opened Fnv

  function ShiftUp13(x: bv64): bv64 { x ^ (x << 13) }

  function ShiftDown7(x: bv64): bv64 { x ^ (x >> 7) }

  function ShiftUp17(x: bv64): bv64 { x ^ (x << 17) }

  /** One draw: the new seed, which is also the number drawn. */
  function NextSeed(seed: bv64): bv64 {
    ShiftUp17(ShiftDown7(ShiftUp13(seed)))
  }

  // An xor with a shifted copy is undone by xoring in every multiple of the shift.
  function UnshiftUp13(y: bv64): bv64 {
    y ^ (y << 13) ^ (y << 26) ^ (y << 39) ^ (y << 52)
  }

  function UnshiftDown7(y: bv64): bv64 {
    y ^ (y >> 7) ^ (y >> 14) ^ (y >> 21) ^ (y >> 28) ^ (y >> 35) ^ (y >> 42) ^ (y >> 49) ^ (y >> 56) ^ (y >> 63)
  }

  function UnshiftUp17(y: bv64): bv64 {
    y ^ (y << 17) ^ (y << 34) ^ (y << 51)
  }

  function PreviousSeed(seed: bv64): bv64 {
    UnshiftUp13(UnshiftDown7(UnshiftUp17(seed)))
  }

  // As with the products in `Fnv`, these give the solver the one form it can fold.
  lemma Fold13(x: bv64)
    ensures UnshiftUp13(x ^ (x << 13)) == x
    ensures ShiftUp13(x ^ (x << 13) ^ (x << 26) ^ (x << 39) ^ (x << 52)) == x
  {
  }

  lemma Unfold13(x: bv64)
    ensures ShiftUp13(x) == x ^ (x << 13)
    ensures UnshiftUp13(x) == x ^ (x << 13) ^ (x << 26) ^ (x << 39) ^ (x << 52)
  {
  }

  lemma Undone13(x: bv64)
    ensures UnshiftUp13(ShiftUp13(x)) == x && ShiftUp13(UnshiftUp13(x)) == x
  {
    hide ShiftUp13, UnshiftUp13;
    Unfold13(x);
    Fold13(x);
  }

  lemma Fold7(x: bv64)
    ensures UnshiftDown7(x ^ (x >> 7)) == x
    ensures ShiftDown7(x ^ (x >> 7) ^ (x >> 14) ^ (x >> 21) ^ (x >> 28) ^ (x >> 35)
                       ^ (x >> 42) ^ (x >> 49) ^ (x >> 56) ^ (x >> 63)) == x
  {
  }

  lemma Unfold7(x: bv64)
    ensures ShiftDown7(x) == x ^ (x >> 7)
    ensures UnshiftDown7(x) == x ^ (x >> 7) ^ (x >> 14) ^ (x >> 21) ^ (x >> 28) ^ (x >> 35)
                       ^ (x >> 42) ^ (x >> 49) ^ (x >> 56) ^ (x >> 63)
  {
  }

  lemma Undone7(x: bv64)
    ensures UnshiftDown7(ShiftDown7(x)) == x && ShiftDown7(UnshiftDown7(x)) == x
  {
    hide ShiftDown7, UnshiftDown7;
    Unfold7(x);
    Fold7(x);
  }

  lemma Fold17(x: bv64)
    ensures UnshiftUp17(x ^ (x << 17)) == x
    ensures ShiftUp17(x ^ (x << 17) ^ (x << 34) ^ (x << 51)) == x
  {
  }

  lemma Unfold17(x: bv64)
    ensures ShiftUp17(x) == x ^ (x << 17)
    ensures UnshiftUp17(x) == x ^ (x << 17) ^ (x << 34) ^ (x << 51)
  {
  }

  lemma Undone17(x: bv64)
    ensures UnshiftUp17(ShiftUp17(x)) == x && ShiftUp17(UnshiftUp17(x)) == x
  {
    hide ShiftUp17, UnshiftUp17;
    Unfold17(x);
    Fold17(x);
  }

  /** A draw is a permutation of the 64-bit words, with this inverse. */
  lemma NextSeedUndone(seed: bv64)
    ensures PreviousSeed(NextSeed(seed)) == seed && NextSeed(PreviousSeed(seed)) == seed
  {
    hide ShiftUp13, ShiftDown7, ShiftUp17, UnshiftUp13, UnshiftDown7, UnshiftUp17;
    Undone17(ShiftDown7(ShiftUp13(seed)));
    Undone7(ShiftUp13(seed));
    Undone13(seed);
    Undone13(UnshiftDown7(UnshiftUp17(seed)));
    Undone7(UnshiftUp17(seed));
    Undone17(seed);
  }

  lemma ZeroIsFixed()
    ensures NextSeed(0) == 0
  {
  }

  /** A seed that is not 0 never becomes 0. */
  lemma StaysSeeded(seed: bv64)
    requires seed != 0
    ensures NextSeed(seed) != 0
  {
    hide NextSeed, PreviousSeed;
    NextSeedUndone(seed);
    NextSeedUndone(0);
    ZeroIsFixed();
  }

  /** The seed after `n` draws. */
  function After(seed: bv64, n: nat): bv64 {
    if n == 0 then seed else NextSeed(After(seed, n - 1))
  }

  lemma {:induction false} AlwaysSeeded(seed: bv64, n: nat)
    requires seed != 0
    ensures After(seed, n) != 0
  {
    hide NextSeed;
    if n > 0 {
      AlwaysSeeded(seed, n - 1);
      StaysSeeded(After(seed, n - 1));
    }
  }

  // ---------------------------------------------------------------------- orbits

  const WORDS: nat := 0x1_0000_0000_0000_0000

  function Number(x: bv64): nat {
    x as nat
  }

  function Word(n: nat): bv64
    requires n < WORDS
  {
    n as bv64
  }

  lemma NumberedWord(x: bv64)
    ensures Number(x) < WORDS && Word(Number(x)) == x
  {
  }

  lemma ZeroIsWordZero()
    ensures Word(0) == 0
  {
  }

  lemma NumbersSeparate(a: bv64, b: bv64)
    requires Number(a) == Number(b)
    ensures a == b
  {
    hide Number, Word;
    NumberedWord(a);
    NumberedWord(b);
  }

  ghost function Visited(seed: bv64, n: nat): set<nat> {
    if n == 0 then {} else Visited(seed, n - 1) + {Number(After(seed, n - 1))}
  }

  lemma {:induction false} VisitedWhen(seed: bv64, n: nat, k: nat) returns (i: nat)
    requires k in Visited(seed, n)
    ensures i < n && Number(After(seed, i)) == k
  {
    hide NextSeed, Number, After;
    if k == Number(After(seed, n - 1)) {
      i := n - 1;
    } else {
      i := VisitedWhen(seed, n - 1, k);
    }
  }

  /** Either some seed was visited twice in `n` draws or there are `n` of them. */
  lemma {:induction false} VisitedTwice(seed: bv64, n: nat) returns (i: nat, j: nat)
    ensures |Visited(seed, n)| == n || (i < j < n && After(seed, i) == After(seed, j))
  {
    hide NextSeed, Number, After;
    i, j := 0, 0;
    if n > 0 {
      i, j := VisitedTwice(seed, n - 1);
      var k := Number(After(seed, n - 1));
      if |Visited(seed, n - 1)| == n - 1 && k in Visited(seed, n - 1) {
        i := VisitedWhen(seed, n - 1, k);
        j := n - 1;
        NumbersSeparate(After(seed, i), After(seed, j));
      }
    }
  }

  /** Every number visited is that of a word, and not 0. */
  lemma {:induction false} VisitedAreSeeds(seed: bv64, n: nat)
    requires seed != 0
    ensures forall k :: k in Visited(seed, n) ==> 0 < k < WORDS
  {
    hide NextSeed, After, Number, Word;
    if n > 0 {
      VisitedAreSeeds(seed, n - 1);
      AlwaysSeeded(seed, n - 1);
      NumberedWord(After(seed, n - 1));
      ZeroIsWordZero();
    }
  }

  lemma {:induction false} FewBelow(s: set<nat>, n: nat)
    requires forall k :: k in s ==> k < n
    ensures |s| <= n
  {
    if n > 0 {
      FewBelow(s - {n - 1}, n - 1);
      assert n - 1 !in s ==> s - {n - 1} == s;
    } else {
      assert s == {};
    }
  }

  lemma {:induction false} Rewind(seed: bv64, i: nat, j: nat)
    requires i < j && After(seed, i) == After(seed, j)
    ensures After(seed, j - i) == seed
    decreases i
  {
    hide NextSeed, PreviousSeed;
    if i > 0 {
      NextSeedUndone(After(seed, i - 1));
      NextSeedUndone(After(seed, j - 1));
      Rewind(seed, i - 1, j - 1);
    }
  }

  /** Every orbit returns to where it started. */
  lemma OrbitReturns(seed: bv64) returns (period: nat)
    requires seed != 0
    ensures 0 < period < WORDS && After(seed, period) == seed
  {
    hide NextSeed, After;
    var i, j := VisitedTwice(seed, WORDS);
    VisitedAreSeeds(seed, WORDS);
    FewBelow(Visited(seed, WORDS) + {0}, WORDS);
    Rewind(seed, i, j);
    period := j - i;
  }

  // ------------------------------------------------------------------- the thread

  /** The eight bytes of a 64-bit word as they lie in memory, lowest first. */
  function Bytes(t: bv64): (b: seq<bv8>)
    ensures |b| == 8
  {
    [(t & 0xff) as bv8, ((t >> 8) & 0xff) as bv8, ((t >> 16) & 0xff) as bv8, ((t >> 24) & 0xff) as bv8,
     ((t >> 32) & 0xff) as bv8, ((t >> 40) & 0xff) as bv8, ((t >> 48) & 0xff) as bv8, ((t >> 56) & 0xff) as bv8]
  }

  class Generator {
    var seed: bv64

    constructor ()
      ensures seed == 0
    {
      seed := 0;
    }

    /** `clock` holds the readings `time` would give; the loop goes on until one of
        them hashes to a seed. Nothing is read once there is one. */
    method Draw(clock: seq<bv64>) returns (drawn: bv64, readings: nat)
      requires seed != 0 || exists k :: 0 <= k < |clock| && Hash(Bytes(clock[k])) != 0
      modifies this
      ensures old(seed) != 0 ==> readings == 0 && seed == NextSeed(old(seed))
      ensures old(seed) == 0 ==> 0 < readings <= |clock| && seed == NextSeed(Hash(Bytes(clock[readings - 1])))
      ensures old(seed) == 0 ==> forall k :: 0 <= k < readings - 1 ==> Hash(Bytes(clock[k])) == 0
      ensures drawn == seed != 0
    {
      hide Hash, Bytes, ShiftUp13, ShiftDown7, ShiftUp17;
      readings := 0;
      while seed == 0
        invariant readings <= |clock|
        invariant forall k :: 0 <= k < readings - 1 ==> Hash(Bytes(clock[k])) == 0
        invariant old(seed) != 0 ==> readings == 0 && seed == old(seed)
        invariant old(seed) == 0 ==> seed == if readings == 0 then 0 else Hash(Bytes(clock[readings - 1]))
        decreases |clock| - readings
      {
        var tmp := Bytes(clock[readings]);
        seed := FnvHash(tmp);
        readings := readings + 1;
      }
      StaysSeeded(seed);
      seed := ShiftUp13(seed);
      seed := ShiftDown7(seed);
      seed := ShiftUp17(seed);
      drawn := seed;
    }
  }
}
