/** The in-place removal loop shared by `confirm_shutdown` and `unregister_cb`. */
module Compaction {

  /** The elements that are not `gone`, in their order. */
  function Keep<T>(s: seq<T>, gone: T -> bool): (r: seq<T>)
    ensures |r| <= |s|
  {
    if s == [] then []
    else Keep(s[..|s| - 1], gone) + if gone(s[|s| - 1]) then [] else [s[|s| - 1]]
  }

  function CountGone<T>(s: seq<T>, gone: T -> bool): nat {
    if s == [] then 0 else CountGone(s[..|s| - 1], gone) + if gone(s[|s| - 1]) then 1 else 0
  }

  /** `Keep` is the filter: it keeps exactly what is not gone, and nothing is lost. */
  lemma {:induction false} KeepIsFilter<T>(s: seq<T>, gone: T -> bool)
    ensures forall x :: x in Keep(s, gone) <==> x in s && !gone(x)
    ensures |Keep(s, gone)| + CountGone(s, gone) == |s|
  {
    if s != [] {
      KeepIsFilter(s[..|s| - 1], gone);
      assert s == s[..|s| - 1] + [s[|s| - 1]];
    }
  }

  lemma {:induction false} KeptAt<T>(s: seq<T>, gone: T -> bool, a: nat) returns (i: nat)
    requires a < |Keep(s, gone)|
    ensures i < |s| && s[i] == Keep(s, gone)[a]
  {
    var rest := s[..|s| - 1];
    if a < |Keep(rest, gone)| {
      i := KeptAt(rest, gone, a);
    } else {
      i := |s| - 1;
    }
  }

  /** Original positions of two kept elements: the order is preserved. */
  lemma {:induction false} KeepInOrder<T>(s: seq<T>, gone: T -> bool, a: nat, b: nat) returns (i: nat, j: nat)
    requires a < b < |Keep(s, gone)|
    ensures i < j < |s| && s[i] == Keep(s, gone)[a] && s[j] == Keep(s, gone)[b]
  {
    var rest := s[..|s| - 1];
    if b < |Keep(rest, gone)| {
      i, j := KeepInOrder(rest, gone, a, b);
    } else {
      i := KeptAt(rest, gone, a);
      j := |s| - 1;
    }
  }

  lemma KeepNext<T>(s: seq<T>, n: nat, gone: T -> bool)
    requires n < |s|
    ensures Keep(s[..n + 1], gone) == Keep(s[..n], gone) + if gone(s[n]) then [] else [s[n]]
    ensures CountGone(s[..n + 1], gone) == CountGone(s[..n], gone) + if gone(s[n]) then 1 else 0
  {
    assert s[..n + 1][..n] == s[..n];
  }

  /** The first `n` elements of `was` have been read: what is kept of them is at the
      front of `now`, and everything from `n` on is still unread and untouched. */
  ghost predicate Swept<T>(was: seq<T>, now: seq<T>, gone: T -> bool, n: int, shift: int) {
    && 0 <= shift <= n <= |was| == |now|
    && shift == CountGone(was[..n], gone)
    && now[..n - shift] == Keep(was[..n], gone)
    && now[n..] == was[n..]
  }

  lemma SweepStart<T>(was: seq<T>, gone: T -> bool)
    ensures Swept(was, was, gone, 0, 0)
  {
  }

  lemma SweepGone<T>(was: seq<T>, now: seq<T>, gone: T -> bool, n: int, shift: int)
    requires Swept(was, now, gone, n, shift) && n < |was| && gone(now[n])
    ensures Swept(was, now, gone, n + 1, shift + 1)
  {
    KeepNext(was, n, gone);
    assert now[n] == now[n..][0] == was[n];
    assert now[n + 1..] == now[n..][1..];
  }

  lemma SweepKept<T>(was: seq<T>, now: seq<T>, gone: T -> bool, n: int, shift: int)
    requires Swept(was, now, gone, n, shift) && n < |was| && !gone(now[n])
    ensures Swept(was, now[n - shift := now[n]], gone, n + 1, shift)
  {
    KeepNext(was, n, gone);
    assert now[n] == now[n..][0] == was[n];
    var next := now[n - shift := now[n]];
    assert next[..n + 1 - shift] == now[..n - shift] + [now[n]];
    assert next[n + 1..] == now[n..][1..];
  }

  lemma SweepAll<T>(was: seq<T>, now: seq<T>, gone: T -> bool, shift: int)
    requires Swept(was, now, gone, |was|, shift)
    ensures shift == CountGone(was, gone) && now[..|was| - shift] == Keep(was, gone)
  {
    assert was[..|was|] == was;
  }

  /** The two-index loop. `shift` is the distance between the slot written and the
      slot read; once the read index passes the end, only the write index goes on. */
  method Compact<T>(a: array<T>, fill: nat, gone: T -> bool) returns (shift: nat)
    requires fill <= a.Length
    modifies a
    ensures shift <= fill && shift == CountGone(old(a[..fill]), gone)
    ensures a[..fill - shift] == Keep(old(a[..fill]), gone)
    ensures a[fill..] == old(a[fill..])
  {
    hide Keep, CountGone;
    shift := 0;
    ghost var was := a[..fill];
    SweepStart(was, gone);
    for i := 0 to fill
      invariant shift <= fill
      invariant Swept(was, a[..fill], gone, Min(i + shift, fill), shift)
      invariant a[fill..] == old(a[fill..])
    {
      while i + shift < fill && gone(a[i + shift])
        invariant shift <= fill
        invariant Swept(was, a[..fill], gone, Min(i + shift, fill), shift)
        invariant a[fill..] == old(a[fill..])
        decreases fill - shift
      {
        SweepGone(was, a[..fill], gone, i + shift, shift);
        shift := shift + 1;
      }
      if i + shift < fill {
        SweepKept(was, a[..fill], gone, i + shift, shift);
        ghost var next := a[..fill][i := a[i + shift]];
        if shift > 0 {
          a[i] := a[i + shift];
        }
        assert a[..fill] == next;
      }
    }
    SweepAll(was, a[..fill], gone, shift);
    assert a[..fill][..fill - shift] == a[..fill - shift];
  }

  function Min(a: int, b: int): int {
    if a < b then a else b
  }
}
