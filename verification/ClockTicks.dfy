/** Consecutive readings of the clock as seeds. The eight bytes of a word and of its
    successor may differ in any number of places, but never hash alike. */
module ClockTicks {
  import opened Fnv
  import opened Rand64

  // -------------------------------------------------------- the bytes of a successor

  /** The bytes below `k` are all 0xff, so adding 1 carries into byte `k`. */
  predicate Full(b: seq<bv8>, k: nat)
    requires k <= |b|
  {
    forall i :: 0 <= i < k ==> b[i] == 0xff
  }

  function Up(byte: bv8, carry: bool): bv8 {
    if carry then byte + 1 else byte
  }

  predicate Ones(t: bv64, mask: bv64) {
    t & mask == mask
  }

  lemma Carries(t: bv64)
    ensures (((t + 1) & 0xff) as bv8) ==
            Up((t & 0xff) as bv8, Ones(t, 0x0))
    ensures ((((t + 1) >> 8) & 0xff) as bv8) ==
            Up(((t >> 8) & 0xff) as bv8, Ones(t, 0xff))
    ensures ((((t + 1) >> 16) & 0xff) as bv8) ==
            Up(((t >> 16) & 0xff) as bv8, Ones(t, 0xffff))
    ensures ((((t + 1) >> 24) & 0xff) as bv8) ==
            Up(((t >> 24) & 0xff) as bv8, Ones(t, 0xffffff))
    ensures ((((t + 1) >> 32) & 0xff) as bv8) ==
            Up(((t >> 32) & 0xff) as bv8, Ones(t, 0xffffffff))
    ensures ((((t + 1) >> 40) & 0xff) as bv8) ==
            Up(((t >> 40) & 0xff) as bv8, Ones(t, 0xffffffffff))
    ensures ((((t + 1) >> 48) & 0xff) as bv8) ==
            Up(((t >> 48) & 0xff) as bv8, Ones(t, 0xffffffffffff))
    ensures ((((t + 1) >> 56) & 0xff) as bv8) ==
            Up(((t >> 56) & 0xff) as bv8, Ones(t, 0xffffffffffffff))
  {
  }

  lemma Masks(t: bv64)
    ensures t & 0xff == 0xff <==>
              t & 0x0 == 0x0 && ((t & 0xff) as bv8) == 0xff
    ensures t & 0xffff == 0xffff <==>
              t & 0xff == 0xff && (((t >> 8) & 0xff) as bv8) == 0xff
    ensures t & 0xffffff == 0xffffff <==>
              t & 0xffff == 0xffff && (((t >> 16) & 0xff) as bv8) == 0xff
    ensures t & 0xffffffff == 0xffffffff <==>
              t & 0xffffff == 0xffffff && (((t >> 24) & 0xff) as bv8) == 0xff
    ensures t & 0xffffffffff == 0xffffffffff <==>
              t & 0xffffffff == 0xffffffff && (((t >> 32) & 0xff) as bv8) == 0xff
    ensures t & 0xffffffffffff == 0xffffffffffff <==>
              t & 0xffffffffff == 0xffffffffff && (((t >> 40) & 0xff) as bv8) == 0xff
    ensures t & 0xffffffffffffff == 0xffffffffffffff <==>
              t & 0xffffffffffff == 0xffffffffffff && (((t >> 48) & 0xff) as bv8) == 0xff
  {
  }

  lemma BytesAre(t: bv64)
    ensures Bytes(t)[0] == (t & 0xff) as bv8
    ensures Bytes(t)[1] == ((t >> 8) & 0xff) as bv8
    ensures Bytes(t)[2] == ((t >> 16) & 0xff) as bv8
    ensures Bytes(t)[3] == ((t >> 24) & 0xff) as bv8
    ensures Bytes(t)[4] == ((t >> 32) & 0xff) as bv8
    ensures Bytes(t)[5] == ((t >> 40) & 0xff) as bv8
    ensures Bytes(t)[6] == ((t >> 48) & 0xff) as bv8
    ensures Bytes(t)[7] == ((t >> 56) & 0xff) as bv8
  {
  }

  lemma FullMasks(t: bv64)
    ensures Full(Bytes(t), 0) <==> Ones(t, 0x0)
    ensures Full(Bytes(t), 1) <==> Ones(t, 0xff)
    ensures Full(Bytes(t), 2) <==> Ones(t, 0xffff)
    ensures Full(Bytes(t), 3) <==> Ones(t, 0xffffff)
    ensures Full(Bytes(t), 4) <==> Ones(t, 0xffffffff)
    ensures Full(Bytes(t), 5) <==> Ones(t, 0xffffffffff)
    ensures Full(Bytes(t), 6) <==> Ones(t, 0xffffffffffff)
    ensures Full(Bytes(t), 7) <==> Ones(t, 0xffffffffffffff)
  {
    hide Bytes;
    BytesAre(t);
    Masks(t);
  }

  lemma NextBytes(t: bv64)
    ensures Bytes(t + 1)[0] == Up(Bytes(t)[0], Full(Bytes(t), 0))
    ensures Bytes(t + 1)[1] == Up(Bytes(t)[1], Full(Bytes(t), 1))
    ensures Bytes(t + 1)[2] == Up(Bytes(t)[2], Full(Bytes(t), 2))
    ensures Bytes(t + 1)[3] == Up(Bytes(t)[3], Full(Bytes(t), 3))
    ensures Bytes(t + 1)[4] == Up(Bytes(t)[4], Full(Bytes(t), 4))
    ensures Bytes(t + 1)[5] == Up(Bytes(t)[5], Full(Bytes(t), 5))
    ensures Bytes(t + 1)[6] == Up(Bytes(t)[6], Full(Bytes(t), 6))
    ensures Bytes(t + 1)[7] == Up(Bytes(t)[7], Full(Bytes(t), 7))
  {
    hide Bytes, Full, Ones, Up;
    BytesAre(t);
    BytesAre(t + 1);
    Carries(t);
    FullMasks(t);
  }

  lemma AllEight(a: seq<bv8>, b: seq<bv8>, k: nat)
    requires |a| == |b| == 8 && k < 8
    requires b[0] == Up(a[0], Full(a, 0))
    requires b[1] == Up(a[1], Full(a, 1))
    requires b[2] == Up(a[2], Full(a, 2))
    requires b[3] == Up(a[3], Full(a, 3))
    requires b[4] == Up(a[4], Full(a, 4))
    requires b[5] == Up(a[5], Full(a, 5))
    requires b[6] == Up(a[6], Full(a, 6))
    requires b[7] == Up(a[7], Full(a, 7))
    ensures b[k] == Up(a[k], Full(a, k))
  {
    hide Full, Up;
  }

  /** Adding 1 to a word adds 1 to its lowest byte and carries upwards over 0xff. */
  lemma NextByte(t: bv64, k: nat)
    requires k < 8
    ensures Bytes(t + 1)[k] == Up(Bytes(t)[k], Full(Bytes(t), k))
  {
    hide Bytes, Full, Up;
    NextBytes(t);
    AllEight(Bytes(t), Bytes(t + 1), k);
  }

  // ---------------------------------------------- the hash of 0xff's and of zeros

  /** The hash state after `n` bytes `byte`. */
  function After(byte: bv8, n: nat): bv64 {
    if n == 0 then FNV_OFFSET else Step(After(byte, n - 1), byte)
  }

  lemma {:induction false} HashOfEqual(key: seq<bv8>, byte: bv8, n: nat)
    requires n <= |key| && forall i :: 0 <= i < n ==> key[i] == byte
    ensures HashFrom(FNV_OFFSET, key[..n]) == After(byte, n)
  {
    hide Step;
    if n > 0 {
      HashOfEqual(key, byte, n - 1);
      assert key[..n][..n - 1] == key[..n - 1];
    }
  }

  lemma StepsOfOnes()
    ensures Step(0xcbf29ce484222325, 0xff) == 0xaf64724c8602eb6e
    ensures Step(0xaf64724c8602eb6e, 0xff) == 0xa99c907b6f64763
    ensures Step(0xa99c907b6f64763, 0xff) == 0xf998341be47bae14
    ensures Step(0xf998341be47bae14, 0xff) == 0x994f76653e2a3951
    ensures Step(0x994f76653e2a3951, 0xff) == 0xac3fdc08a1c002aa
    ensures Step(0xac3fdc08a1c002aa, 0xff) == 0x708537aad943f66f
    ensures Step(0x708537aad943f66f, 0xff) == 0x7654274f2e7bf6b0
    ensures Step(0x7654274f2e7bf6b0, 0xff) == 0x8cf51a8bfca3883d
  {
  }

  lemma StepsOfZeros()
    ensures Step(0xcbf29ce484222325, 0) == 0xaf63bd4c8601b7df
    ensures Step(0xaf63bd4c8601b7df, 0) == 0x8328807b4eb6fed
    ensures Step(0x8328807b4eb6fed, 0) == 0xd94d12186c0f2fb7
    ensures Step(0xd94d12186c0f2fb7, 0) == 0x4d25767f9dce13f5
    ensures Step(0x4d25767f9dce13f5, 0) == 0xe4bc4fd9252be94f
    ensures Step(0xe4bc4fd9252be94f, 0) == 0xd7e4fcfa299d713d
    ensures Step(0xd7e4fcfa299d713d, 0) == 0x778b1a14b6876aa7
    ensures Step(0x778b1a14b6876aa7, 0) == 0xa8c7f832281a39c5
  {
  }

  lemma AfterOnes()
    ensures After(0xff, 1) == 0xaf64724c8602eb6e
    ensures After(0xff, 2) == 0xa99c907b6f64763
    ensures After(0xff, 3) == 0xf998341be47bae14
    ensures After(0xff, 4) == 0x994f76653e2a3951
    ensures After(0xff, 5) == 0xac3fdc08a1c002aa
    ensures After(0xff, 6) == 0x708537aad943f66f
    ensures After(0xff, 7) == 0x7654274f2e7bf6b0
    ensures After(0xff, 8) == 0x8cf51a8bfca3883d
  {
    hide Step;
    StepsOfOnes();
    assert After(0xff, 0) == 0xcbf29ce484222325;
    assert After(0xff, 1) == 0xaf64724c8602eb6e;
    assert After(0xff, 2) == 0xa99c907b6f64763;
    assert After(0xff, 3) == 0xf998341be47bae14;
    assert After(0xff, 4) == 0x994f76653e2a3951;
    assert After(0xff, 5) == 0xac3fdc08a1c002aa;
    assert After(0xff, 6) == 0x708537aad943f66f;
    assert After(0xff, 7) == 0x7654274f2e7bf6b0;
    assert After(0xff, 8) == 0x8cf51a8bfca3883d;
  }

  lemma AfterZeros()
    ensures After(0, 1) == 0xaf63bd4c8601b7df
    ensures After(0, 2) == 0x8328807b4eb6fed
    ensures After(0, 3) == 0xd94d12186c0f2fb7
    ensures After(0, 4) == 0x4d25767f9dce13f5
    ensures After(0, 5) == 0xe4bc4fd9252be94f
    ensures After(0, 6) == 0xd7e4fcfa299d713d
    ensures After(0, 7) == 0x778b1a14b6876aa7
    ensures After(0, 8) == 0xa8c7f832281a39c5
  {
    hide Step;
    StepsOfZeros();
    assert After(0, 0) == 0xcbf29ce484222325;
    assert After(0, 1) == 0xaf63bd4c8601b7df;
    assert After(0, 2) == 0x8328807b4eb6fed;
    assert After(0, 3) == 0xd94d12186c0f2fb7;
    assert After(0, 4) == 0x4d25767f9dce13f5;
    assert After(0, 5) == 0xe4bc4fd9252be94f;
    assert After(0, 6) == 0xd7e4fcfa299d713d;
    assert After(0, 7) == 0x778b1a14b6876aa7;
    assert After(0, 8) == 0xa8c7f832281a39c5;
  }

  /** They differ above the lowest byte, so no byte can bring them together. */
  lemma FarApart(n: nat)
    requires 1 <= n <= 8
    ensures (After(0xff, n) ^ After(0, n)) >> 8 != 0
  {
    hide After;
    AfterOnes();
    AfterZeros();
    assert n == 1 || n == 2 || n == 3 || n == 4 || n == 5 || n == 6 || n == 7 || n == 8;
  }

  lemma BytesAreLow(s: bv64, t: bv64, x: bv8, y: bv8)
    requires s ^ (x as bv64) == t ^ (y as bv64)
    ensures (s ^ t) >> 8 == 0
  {
  }

  lemma FarApartStays(s: bv64, t: bv64, x: bv8, y: bv8)
    requires (s ^ t) >> 8 != 0
    ensures Step(s, x) != Step(t, y)
  {
    hide Primed, Unprimed;
    if Step(s, x) == Step(t, y) {
      PrimeUndone(s ^ (x as bv64));
      PrimeUndone(t ^ (y as bv64));
      BytesAreLow(s, t, x, y);
    }
  }

  // -------------------------------------------------------------------- the ticks

  /** The lowest byte that does not carry, or 8. */
  function Carried(b: seq<bv8>, from: nat): (k: nat)
    requires from <= |b| && Full(b, from)
    ensures from <= k <= |b| && Full(b, k) && (k < |b| ==> b[k] != 0xff)
    decreases |b| - from
  {
    if from == |b| || b[from] != 0xff then from else Carried(b, from + 1)
  }

  lemma NextReading(t: bv64, i: nat)
    requires i < 8
    ensures var a, b, k := Bytes(t), Bytes(t + 1), Carried(Bytes(t), 0);
      && (i < k ==> a[i] == 0xff && b[i] == 0)
      && (i == k ==> b[i] != a[i])
      && (i > k ==> b[i] == a[i])
  {
    hide Bytes;
    NextByte(t, i);
    var a, k := Bytes(t), Carried(Bytes(t), 0);
    assert i > k ==> a[k] != 0xff && !Full(a, i);
    UpChanges(a[i]);
  }

  lemma UpChanges(byte: bv8)
    ensures Up(byte, true) != byte && Up(0xff, true) == 0
  {
  }

  /** Keys that part in a run of 0xff's against zeros, and then go on alike, hash
      differently. */
  lemma RunsSeparate(a: seq<bv8>, b: seq<bv8>, k: nat)
    requires |a| == |b| && 1 <= k < |a| && k <= 8
    requires forall i :: 0 <= i < k ==> a[i] == 0xff && b[i] == 0
    requires a[k + 1..] == b[k + 1..]
    ensures Hash(a) != Hash(b)
  {
    hide Step, HashFrom, After;
    HashOfEqual(a, 0xff, k);
    HashOfEqual(b, 0, k);
    FarApart(k);
    FarApartStays(After(0xff, k), After(0, k), a[k], b[k]);
    Parts(a, k);
    Parts(b, k);
    HashKeepsApart(Step(After(0xff, k), a[k]), Step(After(0, k), b[k]), a[k + 1..]);
  }

  lemma Parts(key: seq<bv8>, k: nat)
    requires k < |key|
    ensures Hash(key) == HashFrom(Step(HashFrom(FNV_OFFSET, key[..k]), key[k]), key[k + 1..])
  {
    hide Step, HashFrom;
    assert key == key[..k] + [key[k]] + key[k + 1..];
    HashFromTo(FNV_OFFSET, key[..k] + [key[k]], key[k + 1..]);
    HashFromTo(FNV_OFFSET, key[..k], [key[k]]);
    HashOne(HashFrom(FNV_OFFSET, key[..k]), key[k]);
  }

  /** Two consecutive readings never hash alike, however far the carry goes. */
  lemma ConsecutiveSeparate(t: bv64)
    ensures Hash(Bytes(t)) != Hash(Bytes(t + 1))
  {
    hide Bytes, Hash, Carried;
    var a, b, k := Bytes(t), Bytes(t + 1), Carried(Bytes(t), 0);
    forall i | 0 <= i < 8
      ensures (i < k ==> a[i] == 0xff && b[i] == 0) && (i == k ==> b[i] != a[i]) && (i > k ==> b[i] == a[i])
    {
      NextReading(t, i);
    }
    if k == 0 {
      OneByteSeparates(a, b, 0);
    } else if k < 8 {
      RunsSeparate(a, b, k);
    } else {
      WholeSeparate(a, b);
    }
  }

  lemma WholeSeparate(a: seq<bv8>, b: seq<bv8>)
    requires |a| == |b| == 8 && forall i :: 0 <= i < 8 ==> a[i] == 0xff && b[i] == 0
    ensures Hash(a) != Hash(b)
  {
    hide HashFrom, After;
    HashOfEqual(a, 0xff, 8);
    HashOfEqual(b, 0, 8);
    FarApart(8);
    assert a[..8] == a && b[..8] == b;
    assert After(0xff, 8) != After(0, 8) by { XorSelf(After(0, 8)); }
  }

  lemma XorSelf(x: bv64)
    ensures (x ^ x) >> 8 == 0
  {
  }

  /** Nor do two readings that differ in one byte leave the thread without a seed. */
  lemma OneByteIsEnough(t: bv64, u: bv64, i: nat)
    requires i < 8 && Bytes(t)[i] != Bytes(u)[i]
    requires forall j :: 0 <= j < 8 && j != i ==> Bytes(t)[j] == Bytes(u)[j]
    ensures Hash(Bytes(t)) != 0 || Hash(Bytes(u)) != 0
  {
    hide Hash, Bytes;
    OneByteSeparates(Bytes(t), Bytes(u), i);
  }

  /** The reseeding loop survives at most one reading of the clock: when the clock has
      ticked, the next reading gives a seed. */
  lemma OneTickIsEnough(t: bv64)
    ensures Hash(Bytes(t)) != 0 || Hash(Bytes(t + 1)) != 0
  {
    hide Hash, Bytes;
    ConsecutiveSeparate(t);
  }
}
