/** The growable arrays behind the three thread-local stacks of libevsig, and
    removal of an entry by its id. */
module GrowableStack {

  const INITIAL_CAPACITY: nat := 32

  /** The capacities a stack can have: 32, doubled any number of times. */
  predicate IsCapacity(n: nat) {
    n == INITIAL_CAPACITY || (n > INITIAL_CAPACITY && n % 2 == 0 && IsCapacity(n / 2))
  }

  lemma Doubled(n: nat)
    requires IsCapacity(n)
    ensures n > 0 && IsCapacity(n * 2)
  {
  }

  function Last<T>(s: seq<T>): T
    requires s != []
  {
    s[|s| - 1]
  }

  function Init<T>(s: seq<T>): seq<T>
    requires s != []
  {
    s[..|s| - 1]
  }

  /** The topmost entry carrying `id` is taken out; the rest keep their order. */
  function Without<T>(s: seq<T>, key: T -> nat, id: nat): seq<T> {
    if s == [] then []
    else if key(Last(s)) == id then Init(s)
    else Without(Init(s), key, id) + [Last(s)]
  }

  ghost predicate Increasing<T>(s: seq<T>, key: T -> nat) {
    forall i, j :: 0 <= i < j < |s| ==> key(s[i]) < key(s[j])
  }

  /** What `Without` does, by position: nothing when the id is absent, otherwise
      exactly the topmost position holding it disappears. */
  lemma {:induction false} WithoutAt<T>(s: seq<T>, key: T -> nat, id: nat, found: int)
    requires -1 <= found < |s|
    requires found >= 0 ==> key(s[found]) == id
    requires forall j :: found < j < |s| ==> key(s[j]) != id
    ensures Without(s, key, id) == if found < 0 then s else s[..found] + s[found + 1..]
    decreases |s|
  {
    if s == [] {
    } else if found == |s| - 1 {
      assert s[found + 1..] == [];
    } else {
      WithoutAt(Init(s), key, id, found);
      CutBelowTop(s, found);
    }
  }

  lemma CutBelowTop<T>(s: seq<T>, found: int)
    requires s != [] && -1 <= found < |s| - 1
    ensures s == Init(s) + [Last(s)]
    ensures found >= 0 ==> s[..found] + s[found + 1..] == Init(s)[..found] + Init(s)[found + 1..] + [Last(s)]
  {
  }

  /** Cutting position `i` out of a stack. */
  lemma CutOut<T>(s: seq<T>, i: nat, e: T)
    requires i < |s|
    ensures e in s[..i] + s[i + 1..] ==> e in s
    ensures e in s && e != s[i] ==> e in s[..i] + s[i + 1..]
  {
    var w := s[..i] + s[i + 1..];
    if e in s && e != s[i] {
      var k :| 0 <= k < |s| && s[k] == e;
      assert w[if k < i then k else k - 1] == e;
    }
  }

  lemma CutKeepsOrder<T>(s: seq<T>, key: T -> nat, i: nat)
    requires Increasing(s, key) && i < |s|
    ensures Increasing(s[..i] + s[i + 1..], key)
  {
    var w := s[..i] + s[i + 1..];
    forall a, b | 0 <= a < b < |w| ensures key(w[a]) < key(w[b]) {
      var a', b' := if a < i then a else a + 1, if b < i then b else b + 1;
      assert w[a] == s[a'] && w[b] == s[b'];
    }
  }

  lemma OnlyOwner<T>(s: seq<T>, key: T -> nat, i: nat, e: T)
    requires Increasing(s, key) && i < |s| && e in s && key(e) == key(s[i])
    ensures e == s[i]
  {
    var k :| 0 <= k < |s| && s[k] == e;
    assert k == i;
  }

  /** On a stack with increasing ids, removal by id deletes exactly the owner's
      entry: every other entry stays, in the same order, and ids still increase. */
  lemma {:induction false} WithoutExact<T>(s: seq<T>, key: T -> nat, id: nat)
    requires Increasing(s, key)
    ensures Increasing(Without(s, key, id), key)
    ensures forall e :: e in Without(s, key, id) <==> e in s && key(e) != id
  {
    hide Without;
    if i :| 0 <= i < |s| && key(s[i]) == id {
      var w := s[..i] + s[i + 1..];
      assert Without(s, key, id) == w by {
        forall j | i < j < |s| ensures key(s[j]) != id {
          assert key(s[i]) < key(s[j]);
        }
        WithoutAt(s, key, id, i);
      }
      CutKeepsOrder(s, key, i);
      hide Increasing;
      forall e ensures e in w <==> e in s && key(e) != id {
        CutOut(s, i, e);
        if e in s && key(e) == id { OnlyOwner(s, key, i, e); }
        if key(e) == id { CutIsGone(s, key, i, e); }
      }
    } else {
      WithoutAt(s, key, id, -1);
    }
  }

  lemma CutIsGone<T>(s: seq<T>, key: T -> nat, i: nat, e: T)
    requires Increasing(s, key) && i < |s| && key(e) == key(s[i])
    ensures e !in s[..i] + s[i + 1..]
  {
    var w := s[..i] + s[i + 1..];
    forall k | 0 <= k < |w| ensures w[k] != e {
      var k' := if k < i then k else k + 1;
      assert w[k] == s[k'] && key(s[k']) != key(s[i]);
    }
  }

  /** Two stacks with increasing ids and the same entries are the same stack. */
  lemma {:induction false} SortedUnique<T>(a: seq<T>, b: seq<T>, key: T -> nat)
    requires Increasing(a, key) && Increasing(b, key)
    requires forall e :: e in a <==> e in b
    ensures a == b
    decreases |a|
  {
    assert a != [] ==> a[0] in b;
    assert b != [] ==> b[0] in a;
    if a != [] && b != [] {
      assert Last(a) in b && Last(b) in a;
      assert Last(a) == Last(b);
      forall e ensures e in Init(a) <==> e in Init(b) {
        assert e in a <==> e in Init(a) || e == Last(a);
        assert e in b <==> e in Init(b) || e == Last(b);
      }
      SortedUnique(Init(a), Init(b), key);
      assert a == Init(a) + [Last(a)] && b == Init(b) + [Last(b)];
    }
  }

  /** A heap array that doubles when full. The entries at and above `fill` are
      dead slots. */
  class Stack<T(0)> {
    var data: array<T>
    var fill: nat

    ghost predicate Valid()
      reads this
    {
      fill <= data.Length && IsCapacity(data.Length)
    }

    ghost function Contents(): seq<T>
      reads this, data
      requires Valid()
    {
      data[..fill]
    }

    constructor ()
      ensures Valid() && fresh(data) && Contents() == []
    {
      data := new T[INITIAL_CAPACITY];
      fill := 0;
    }

    /** Doubles the array; the entries move over. */
    method Grow()
      requires Valid()
      modifies this`data
      ensures Valid() && fresh(data) && fill == old(fill) && fill < data.Length
      ensures Contents() == old(Contents())
    {
      var bigger := new T[data.Length * 2];
      for i := 0 to fill
        invariant unchanged(this) && unchanged(data)
        invariant bigger[..i] == data[..i]
      {
        bigger[i] := data[i];
      }
      Doubled(data.Length);
      data := bigger;
    }

    method Push(x: T)
      requires Valid()
      modifies this, data
      ensures Valid() && (data == old(data) || fresh(data))
      ensures Contents() == old(Contents()) + [x]
    {
      hide IsCapacity;
      if fill + 1 > data.Length {
        Grow();
      }
      data[fill] := x;
      fill := fill + 1;
    }

    /** The slot is not cleared: only the fill moves. */
    method Pop()
      requires Valid() && Contents() != []
      modifies this`fill
      ensures Valid() && data == old(data)
      ensures Contents() == Init(old(Contents()))
    {
      fill := fill - 1;
    }

    /** The search of the removal loops, downwards from the top. */
    method Find(key: T -> nat, id: nat) returns (found: int)
      requires Valid()
      ensures -1 <= found < fill
      ensures found >= 0 ==> key(data[found]) == id
      ensures forall j :: found < j < fill ==> key(data[j]) != id
    {
      found := fill - 1;
      while found >= 0
        invariant -1 <= found < fill
        invariant forall j :: found < j < fill ==> key(data[j]) != id
      {
        if key(data[found]) == id {
          break;
        }
        found := found - 1;
      }
    }

    /** Everything above `found` moves down by one. */
    method ShiftOut(found: nat)
      requires Valid() && found < fill
      modifies this`fill, data
      ensures Valid() && data == old(data)
      ensures Contents() == old(Contents())[..found] + old(Contents())[found + 1..]
    {
      hide IsCapacity;
      ghost var was := Contents();
      var i := found;
      while i < fill - 1
        invariant found <= i <= fill - 1 && fill == old(fill)
        invariant data[..i] == was[..found] + was[found + 1..i + 1]
        invariant data[i..fill] == was[i..]
      {
        assert data[i + 1] == data[i..fill][1];
        ghost var rest := data[i + 1..fill];
        data[i] := data[i + 1];
        assert data[i + 1..fill] == rest == was[i + 1..];
        i := i + 1;
      }
      fill := fill - 1;
    }

    /** Search downwards for the id, then shift everything above it down by one. */
    method RemoveById(key: T -> nat, id: nat)
      requires Valid()
      modifies this`fill, data
      ensures Valid() && data == old(data)
      ensures Contents() == Without(old(Contents()), key, id)
    {
      hide IsCapacity, Without;
      ghost var was := Contents();
      if fill <= 0 {
        WithoutAt(was, key, id, -1);
        return;
      }
      var found := Find(key, id);
      WithoutAt(was, key, id, found);
      if found >= 0 {
        ShiftOut(found);
      }
    }
  }
}
