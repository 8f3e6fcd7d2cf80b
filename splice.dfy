/** Moving one element of a list to another index the way two `splice` calls do: take it
    out at `from`, put it back at `to` of the shortened list. */
module Splice {

  /** s without its element at i. */
  function RemoveAt<T>(s: seq<T>, i: nat): (r: seq<T>)
    requires i < |s|
    ensures |r| == |s| - 1
    ensures forall p :: 0 <= p < |r| ==> r[p] == (if p < i then s[p] else s[p + 1])
  {
    s[..i] + s[i + 1..]
  }

  /** s with x inserted so that it sits at index j. */
  function InsertAt<T>(s: seq<T>, j: nat, x: T): (r: seq<T>)
    requires j <= |s|
    ensures |r| == |s| + 1
    ensures forall p :: 0 <= p < |r| ==> r[p] == (if p < j then s[p] else if p == j then x else s[p - 1])
  {
    s[..j] + [x] + s[j..]
  }

  /** `next.splice(from, 1)` followed by `next.splice(to, 0, moved)`. */
  function Moved<T>(s: seq<T>, from: nat, to: nat): (r: seq<T>)
    requires from < |s| && to < |s|
    ensures |r| == |s|
  {
    InsertAt(RemoveAt(s, from), to, s[from])
  }

  /** Moved, index by index: the elements between the two indices shift by one toward
      `from`, the moved one lands at `to`, the rest stay put. */
  lemma MovedAt<T>(s: seq<T>, from: nat, to: nat)
    requires from < |s| && to < |s|
    ensures forall p :: 0 <= p < |s| ==>
              Moved(s, from, to)[p] ==
                if p == to then s[from]
                else if from < to && from <= p < to then s[p + 1]
                else if to < from && to < p <= from then s[p - 1]
                else s[p]
  {
    var rest := RemoveAt(s, from);
    var m := Moved(s, from, to);
    assert m == InsertAt(rest, to, s[from]);
    forall p | 0 <= p < |s|
      ensures m[p] == if p == to then s[from]
                      else if from < to && from <= p < to then s[p + 1]
                      else if to < from && to < p <= from then s[p - 1]
                      else s[p]
    {
      if p < to {
        assert m[p] == rest[p];
      } else if p > to {
        assert m[p] == rest[p - 1];
      }
    }
  }

  /** The same elements, each as often as before. */
  lemma MovedPermutes<T>(s: seq<T>, from: nat, to: nat)
    requires from < |s| && to < |s|
    ensures multiset(Moved(s, from, to)) == multiset(s)
  {
    var rest := RemoveAt(s, from);
    calc {
      multiset(s);
      { assert s == s[..from] + [s[from]] + s[from + 1..]; }
      multiset(s[..from]) + multiset{s[from]} + multiset(s[from + 1..]);
      { assert rest == s[..from] + s[from + 1..]; }
      multiset(rest) + multiset{s[from]};
      { assert rest == rest[..to] + rest[to..]; }
      multiset(rest[..to]) + multiset{s[from]} + multiset(rest[to..]);
      { assert Moved(s, from, to) == rest[..to] + [s[from]] + rest[to..]; }
      multiset(Moved(s, from, to));
    }
  }

  /** The moved element is at `to`, and the others keep their relative order. */
  lemma MovedKeepsOthersInOrder<T>(s: seq<T>, from: nat, to: nat)
    requires from < |s| && to < |s|
    ensures Moved(s, from, to)[to] == s[from]
    ensures RemoveAt(Moved(s, from, to), to) == RemoveAt(s, from)
  {
  }

  /** Moving back undoes the move. */
  lemma MovedInverse<T>(s: seq<T>, from: nat, to: nat)
    requires from < |s| && to < |s|
    ensures Moved(Moved(s, from, to), to, from) == s
  {
    var m := Moved(s, from, to);
    MovedKeepsOthersInOrder(s, from, to);
    var back := Moved(m, to, from);
    assert RemoveAt(m, to) == RemoveAt(s, from);
    assert back == InsertAt(RemoveAt(s, from), from, s[from]);
    assert back == s[..from] + [s[from]] + s[from + 1..];
    assert s == s[..from] + [s[from]] + s[from + 1..];
  }

  /** Lines 193-195 on an array `next` that starts as a copy of the list: the element at
      `from` is lifted out and the elements up to `to` shift over to make room. */
  method SpliceMove<T>(a: array<T>, from: int, to: int)
    requires 0 <= from < a.Length && 0 <= to < a.Length
    modifies a
    ensures a[..] == Moved(old(a[..]), from, to)
  {
    ghost var s := a[..];
    var moved := a[from];
    if from < to {
      ShiftDown(a, from, to);
      a[to] := moved;
      ShiftedDownIsMoved(s, a[..], from, to);
    } else {
      ShiftUp(a, to, from);
      a[to] := moved;
      ShiftedUpIsMoved(s, a[..], from, to);
    }
  }

  /** A list whose elements in [from, to) are those of s one place further on, with s[from]
      at `to` and the rest unchanged, is s with that element moved forward. */
  lemma ShiftedDownIsMoved<T>(s: seq<T>, t: seq<T>, from: nat, to: nat)
    requires from < to < |s| && |t| == |s| && t[to] == s[from]
    requires forall p :: from <= p < to ==> t[p] == s[p + 1]
    requires forall p :: 0 <= p < from || to < p < |s| ==> t[p] == s[p]
    ensures t == Moved(s, from, to)
  {
    MovedAt(s, from, to);
  }

  /** A list whose elements in (to, from] are those of s one place earlier, with s[from]
      at `to` and the rest unchanged, is s with that element moved back. */
  lemma ShiftedUpIsMoved<T>(s: seq<T>, t: seq<T>, from: nat, to: nat)
    requires to <= from < |s| && |t| == |s| && t[to] == s[from]
    requires forall p :: to < p <= from ==> t[p] == s[p - 1]
    requires forall p :: 0 <= p < to || from < p < |s| ==> t[p] == s[p]
    ensures t == Moved(s, from, to)
  {
    MovedAt(s, from, to);
  }

  /** Each element of (lo, hi] moves one place down; the rest stay put. */
  method ShiftDown<T>(a: array<T>, lo: int, hi: int)
    requires 0 <= lo <= hi < a.Length
    modifies a
    ensures forall p :: lo <= p < hi ==> a[p] == old(a[p + 1])
    ensures forall p :: 0 <= p < lo || hi <= p < a.Length ==> a[p] == old(a[p])
  {
    var k := lo;
    while k < hi
      invariant lo <= k <= hi
      invariant forall p :: lo <= p < k ==> a[p] == old(a[p + 1])
      invariant forall p :: 0 <= p < lo || k <= p < a.Length ==> a[p] == old(a[p])
    {
      a[k] := a[k + 1];
      k := k + 1;
    }
  }

  /** Each element of [lo, hi) moves one place up; the rest stay put. */
  method ShiftUp<T>(a: array<T>, lo: int, hi: int)
    requires 0 <= lo <= hi < a.Length
    modifies a
    ensures forall p :: lo < p <= hi ==> a[p] == old(a[p - 1])
    ensures forall p :: 0 <= p <= lo || hi < p < a.Length ==> a[p] == old(a[p])
  {
    var k := hi;
    while k > lo
      invariant lo <= k <= hi
      invariant forall p :: k < p <= hi ==> a[p] == old(a[p - 1])
      invariant forall p :: 0 <= p <= k || hi < p < a.Length ==> a[p] == old(a[p])
    {
      a[k] := a[k - 1];
      k := k - 1;
    }
  }
}
