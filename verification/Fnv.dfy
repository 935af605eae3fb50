/** The 64-bit FNV-1a hash (section 2 of draft-eastlake-fnv). */
module Fnv {
  const FNV_OFFSET: bv64 := 14695981039346656037

  /** Multiplication by the FNV prime, modulo 2^64. */
  function Primed(x: bv64): bv64 {
    x * 1099511628211
  }

  /** Multiplication by the inverse of the FNV prime, modulo 2^64. */
  function Unprimed(x: bv64): bv64 {
    x * 0xce965057aff6957b
  }

  function Step(state: bv64, byte: bv8): bv64 {
    Primed(state ^ (byte as bv64))
  }

  function Unstep(state: bv64, byte: bv8): bv64 {
    Unprimed(state) ^ (byte as bv64)
  }

  /** The hash state after `key`, from any state. */
  function HashFrom(state: bv64, key: seq<bv8>): bv64 {
    if key == [] then state else Step(HashFrom(state, key[..|key| - 1]), key[|key| - 1])
  }

  function Hash(key: seq<bv8>): bv64 {
    HashFrom(FNV_OFFSET, key)
  }

  method FnvHash(key: seq<bv8>) returns (result: bv64)
    ensures result == Hash(key)
  {
    hide Step;
    result := FNV_OFFSET;
    for i := 0 to |key|
      invariant result == HashFrom(FNV_OFFSET, key[..i])
    {
      var byte := key[i];
      assert key[..i + 1][..i] == key[..i];
      assert Step(result, byte) == Primed(result ^ (byte as bv64)) by { StepIs(result, byte); }
      result := result ^ (byte as bv64);
      result := Primed(result);
    }
    assert key[..|key|] == key;
  }

  lemma StepIs(state: bv64, byte: bv8)
    ensures Step(state, byte) == Primed(state ^ (byte as bv64))
  {
    hide Primed;
  }

  // ------------------------------------------------------------- each step undone

  // These three keep the products in the one form the solver can fold.
  lemma UnprimedProduct(x: bv64)
    ensures Unprimed(x * 1099511628211) == x
  {
  }

  lemma PrimedProduct(x: bv64)
    ensures Primed(x * 0xce965057aff6957b) == x
  {
  }

  lemma Products(x: bv64)
    ensures Primed(x) == x * 1099511628211 && Unprimed(x) == x * 0xce965057aff6957b
  {
  }

  lemma PrimeUndone(x: bv64)
    ensures Unprimed(Primed(x)) == x && Primed(Unprimed(x)) == x
  {
    hide Primed, Unprimed;
    Products(x);
    UnprimedProduct(x);
    PrimedProduct(x);
  }

  lemma XorTwice(x: bv64, b: bv64)
    ensures (x ^ b) ^ b == x
  {
  }

  /** For a fixed byte a step is a permutation of the 64-bit words, with this inverse. */
  lemma StepUndone(state: bv64, byte: bv8)
    ensures Unstep(Step(state, byte), byte) == state
    ensures Step(Unstep(state, byte), byte) == state
  {
    hide Primed, Unprimed;
    PrimeUndone(state ^ (byte as bv64));
    PrimeUndone(state);
    XorTwice(state, byte as bv64);
    XorTwice(Unprimed(state), byte as bv64);
  }

  lemma BytesWiden(state: bv64, a: bv8, b: bv8)
    requires state ^ (a as bv64) == state ^ (b as bv64)
    ensures a == b
  {
  }

  /** From one state, different bytes lead to different states. */
  lemma StepSeparates(state: bv64, a: bv8, b: bv8)
    requires a != b
    ensures Step(state, a) != Step(state, b)
  {
    hide Primed, Unprimed;
    if Step(state, a) == Step(state, b) {
      PrimeUndone(state ^ (a as bv64));
      PrimeUndone(state ^ (b as bv64));
      BytesWiden(state, a, b);
    }
  }

  // -------------------------------------------------------------- the whole hash

  lemma {:induction false} HashFromTo(state: bv64, front: seq<bv8>, back: seq<bv8>)
    ensures HashFrom(state, front + back) == HashFrom(HashFrom(state, front), back)
  {
    hide Step;
    if back == [] {
      assert front + back == front;
    } else {
      var n := |back| - 1;
      HashFromTo(state, front, back[..n]);
      assert (front + back)[..|front + back| - 1] == front + back[..n];
    }
  }

  /** Hashing the same bytes never merges two states. */
  lemma {:induction false} HashKeepsApart(s: bv64, t: bv64, key: seq<bv8>)
    requires s != t
    ensures HashFrom(s, key) != HashFrom(t, key)
  {
    hide Step, Unstep;
    if key != [] {
      var n := |key| - 1;
      HashKeepsApart(s, t, key[..n]);
      StepUndone(HashFrom(s, key[..n]), key[n]);
      StepUndone(HashFrom(t, key[..n]), key[n]);
    }
  }

  /** Keys of one length that differ in exactly one byte have different hashes. */
  lemma OneByteSeparates(a: seq<bv8>, b: seq<bv8>, i: nat)
    requires |a| == |b| && i < |a| && a[i] != b[i]
    requires forall j :: 0 <= j < |a| && j != i ==> a[j] == b[j]
    ensures Hash(a) != Hash(b)
  {
    hide Step, HashFrom;
    var front, back := a[..i], a[i + 1..];
    assert a == front + [a[i]] + back && b == front + [b[i]] + back;
    var s := HashFrom(FNV_OFFSET, front);
    HashOne(s, a[i]);
    HashOne(s, b[i]);
    StepSeparates(s, a[i], b[i]);
    HashFromTo(FNV_OFFSET, front, [a[i]]);
    HashFromTo(FNV_OFFSET, front, [b[i]]);
    HashFromTo(FNV_OFFSET, front + [a[i]], back);
    HashFromTo(FNV_OFFSET, front + [b[i]], back);
    HashKeepsApart(Step(s, a[i]), Step(s, b[i]), back);
  }

  lemma HashOne(state: bv64, byte: bv8)
    ensures HashFrom(state, [byte]) == Step(state, byte)
  {
    hide Step;
    assert [byte][..0] == [];
  }
}
