/** Sequence helpers that mirror the JavaScript array operations the games use:
    `filter` (a new array of the elements a predicate keeps) and `splice(i, 1)`
    (remove the element at index i; nothing happens when i is past the end). */
module Seqs {

  /** A value that may be missing (a lookup that finds nothing, a ratio of nothing). */
  datatype Option<T> = None | Some(value: T)

  /** `s.filter(keep)`: the elements of s that keep accepts, in their order. */
  function Filter<T>(s: seq<T>, keep: T -> bool): (r: seq<T>)
    ensures |r| <= |s|
    ensures forall x :: x in r ==> x in s && keep(x)
  {
    if s == [] then []
    else
      assert s == [s[0]] + s[1..];
      var rest := Filter(s[1..], keep);
      if keep(s[0]) then [s[0]] + rest else rest
  }

  /** Nothing that the predicate accepts is lost: the other half of Filter's contract. */
  lemma {:induction false} FilterComplete<T>(s: seq<T>, keep: T -> bool, x: T)
    requires x in s && keep(x)
    ensures x in Filter(s, keep)
  {
    if s[0] != x {
      assert x in s[1..];
      FilterComplete(s[1..], keep, x);
    }
  }

  /** Filter keeps everything exactly when every element is accepted. */
  lemma {:induction false} FilterAll<T>(s: seq<T>, keep: T -> bool)
    ensures Filter(s, keep) == s <==> forall x :: x in s ==> keep(x)
  {
    if s != [] {
      FilterAll(s[1..], keep);
      if !keep(s[0]) {
        assert |Filter(s, keep)| < |s| by { assert |Filter(s[1..], keep)| <= |s[1..]|; }
      }
      assert forall x :: x in s <==> x == s[0] || x in s[1..];
    }
  }

  /** Filter drops everything exactly when no element is accepted. */
  lemma {:induction false} FilterNone<T>(s: seq<T>, keep: T -> bool)
    ensures Filter(s, keep) == [] <==> forall x :: x in s ==> !keep(x)
  {
    if s != [] {
      FilterNone(s[1..], keep);
      assert forall x :: x in s <==> x == s[0] || x in s[1..];
    }
  }

  /** Two filters with opposite predicates split the input between them. */
  lemma {:induction false} FilterSplit<T>(s: seq<T>, keep: T -> bool, drop: T -> bool)
    requires forall x :: drop(x) == !keep(x)
    ensures |Filter(s, keep)| + |Filter(s, drop)| == |s|
  {
    if s != [] {
      FilterSplit(s[1..], keep, drop);
    }
  }

  /** A filter that loses nothing kept everything. */
  lemma {:induction false} FilterFull<T>(s: seq<T>, keep: T -> bool)
    requires |Filter(s, keep)| == |s|
    ensures Filter(s, keep) == s
  {
    if s != [] {
      assert |Filter(s[1..], keep)| <= |s[1..]|;
      FilterFull(s[1..], keep);
    }
  }

  /** Filtering distributes over concatenation. */
  lemma {:induction false} FilterConcat<T>(a: seq<T>, b: seq<T>, keep: T -> bool)
    ensures Filter(a + b, keep) == Filter(a, keep) + Filter(b, keep)
  {
    if a != [] {
      assert (a + b)[1..] == a[1..] + b;
      FilterConcat(a[1..], b, keep);
    } else {
      assert a + b == b;
    }
  }

  /** `s.splice(i, 1)`: removes the element at index i, or nothing when i is past the end. */
  function RemoveAt<T>(s: seq<T>, i: nat): (r: seq<T>)
    ensures i < |s| ==> |r| == |s| - 1
    ensures i < |s| ==> r[..i] == s[..i] && forall j :: i <= j < |r| ==> r[j] == s[j + 1]
    ensures |s| <= i ==> r == s
    ensures forall x :: x in r ==> x in s
  {
    if i < |s| then
      assert s == s[..i] + [s[i]] + s[i + 1..];
      s[..i] + s[i + 1..]
    else s
  }

  /** Appending one element to the input appends it to the output iff it is kept. */
  lemma {:induction false} FilterSnoc<T>(s: seq<T>, x: T, keep: T -> bool)
    ensures Filter(s + [x], keep) == Filter(s, keep) + (if keep(x) then [x] else [])
  {
    if s == [] {
      assert [x] + [] == [x];
    } else {
      assert (s + [x])[1..] == s[1..] + [x];
      FilterSnoc(s[1..], x, keep);
    }
  }

  /** The `filter` calls whose callback first moves each element in place and
      then decides whether to keep it: `s.filter(o => { step(o); return keep(o); })`. */
  function MapFilter<T>(s: seq<T>, step: T -> T, keep: T -> bool): (r: seq<T>)
    ensures |r| <= |s|
    ensures forall x :: x in r ==> keep(x) && exists y :: y in s && x == step(y)
  {
    var moved := seq(|s|, i requires 0 <= i < |s| => step(s[i]));
    assert forall x :: x in moved ==> exists i :: 0 <= i < |s| && x == step(s[i]);
    Filter(moved, keep)
  }

  /** An element survives MapFilter exactly when its moved form is kept. */
  lemma MapFilterKeeps<T>(s: seq<T>, step: T -> T, keep: T -> bool, y: T)
    requires y in s
    ensures step(y) in MapFilter(s, step, keep) <==> keep(step(y))
  {
    var moved := seq(|s|, i requires 0 <= i < |s| => step(s[i]));
    var i :| 0 <= i < |s| && s[i] == y;
    assert moved[i] == step(y);
    if keep(step(y)) {
      FilterComplete(moved, keep, step(y));
    }
  }

  /** The step of a sweep that only removes. */
  function Id<T>(x: T): T { x }

  /** The `forEach` loops that splice while they iterate, from index k on:
      `s.forEach((x, i) => { step(x); if (hit(x)) s.splice(i, 1); })`.
      A visited element is first stepped, then removed when it is hit; the
      element that slides into a removed one's slot is not visited. The loop
      is bounded by the initial length, so indices past the shrunken end visit
      nothing. */
  function Sweep<T>(s: seq<T>, k: nat, step: T -> T, hit: T -> bool): (r: seq<T>)
    ensures |r| <= |s|
    decreases |s| - k
  {
    if |s| <= k then s
    else
      var x := step(s[k]);
      if hit(x) then Sweep(RemoveAt(s, k), k + 1, step, hit)
      else Sweep(s[k := x], k + 1, step, hit)
  }

  /** The elements a sweep removes, in the order it removes them, as they were
      when they were hit (after their step). */
  function Caught<T>(s: seq<T>, k: nat, step: T -> T, hit: T -> bool): (r: seq<T>)
    ensures forall x :: x in r ==> hit(x)
    decreases |s| - k
  {
    if |s| <= k then []
    else
      var x := step(s[k]);
      if hit(x) then [x] + Caught(RemoveAt(s, k), k + 1, step, hit)
      else Caught(s[k := x], k + 1, step, hit)
  }

  /** Every element a sweep visits is either kept or caught, never both, and
      none is made up: the two results together are as long as the input. */
  lemma {:induction false} SweepConserves<T>(s: seq<T>, k: nat, step: T -> T, hit: T -> bool)
    ensures |Sweep(s, k, step, hit)| + |Caught(s, k, step, hit)| == |s|
    decreases |s| - k
  {
    if k < |s| {
      var x := step(s[k]);
      if hit(x) {
        SweepConserves(RemoveAt(s, k), k + 1, step, hit);
      } else {
        SweepConserves(s[k := x], k + 1, step, hit);
      }
    }
  }

  /** The splicing `forEach` itself, over a local copy of the array: returns
      what is left and, in order, what was removed. */
  method ForEachSplice<T>(s: seq<T>, step: T -> T, hit: T -> bool) returns (rest: seq<T>, caught: seq<T>)
    ensures rest == Sweep(s, 0, step, hit) && caught == Caught(s, 0, step, hit)
    ensures |rest| + |caught| == |s|
  {
    rest, caught := s, [];
    var n := |s|;
    var k := 0;
    while k < n
      invariant 0 <= k <= n && |rest| <= n
      invariant Sweep(rest, k, step, hit) == Sweep(s, 0, step, hit)
      invariant caught + Caught(rest, k, step, hit) == Caught(s, 0, step, hit)
    {
      if k < |rest| {
        var x := step(rest[k]);
        if hit(x) {
          caught := caught + [x];
          rest := RemoveAt(rest, k);
        } else {
          rest := rest[k := x];
        }
      }
      k := k + 1;
    }
    assert caught + [] == caught;
    SweepConserves(s, 0, step, hit);
  }

  /** A sweep adds nothing: what it leaves is an element of the input that was
      not stepped (before index k, or skipped), or the stepped form of one. */
  lemma {:induction false} SweepMembers<T>(s: seq<T>, k: nat, step: T -> T, hit: T -> bool)
    ensures forall x :: x in Sweep(s, k, step, hit) ==>
      x in s || exists i :: k <= i < |s| && x == step(s[i])
    decreases |s| - k
  {
    if k < |s| {
      var x := step(s[k]);
      if hit(x) {
        var s' := RemoveAt(s, k);
        SweepMembers(s', k + 1, step, hit);
        assert forall i :: k + 1 <= i < |s'| ==> s'[i] == s[i + 1];
      } else {
        var s' := s[k := x];
        SweepMembers(s', k + 1, step, hit);
        assert forall z :: z in s' ==> z in s || z == x;
      }
    }
  }

  /** A sweep that only removes keeps a subset of its input. */
  lemma SweepSubset<T>(s: seq<T>, hit: T -> bool)
    ensures forall x :: x in Sweep(s, 0, Id, hit) ==> x in s
  {
    SweepMembers(s, 0, Id, hit);
  }

  /** When nothing visited is hit, the sweep removes nothing and only steps the
      elements from index k on. */
  lemma {:induction false} SweepQuiet<T>(s: seq<T>, k: nat, step: T -> T, hit: T -> bool)
    requires k <= |s|
    requires forall i :: k <= i < |s| ==> !hit(step(s[i]))
    ensures |Sweep(s, k, step, hit)| == |s|
    ensures Sweep(s, k, step, hit)[..k] == s[..k]
    ensures forall i :: k <= i < |s| ==> Sweep(s, k, step, hit)[i] == step(s[i])
    decreases |s| - k
  {
    if k < |s| {
      var s' := s[k := step(s[k])];
      SweepQuiet(s', k + 1, step, hit);
      assert s'[..k] == s[..k];
    }
  }

  /** A sweep with no step and no hits leaves the sequence as it was. */
  lemma SweepUntouched<T>(s: seq<T>, hit: T -> bool)
    requires forall x :: x in s ==> !hit(x)
    ensures Sweep(s, 0, Id, hit) == s
  {
    SweepQuiet(s, 0, Id, hit);
  }

  /** The slot-skipping quirk: of two adjacent elements that are both hit, the
      second is not visited, so it survives the pass. */
  lemma SweepSkipsSuccessor<T>(a: T, b: T, hit: T -> bool)
    requires hit(a) && hit(b)
    ensures Sweep([a, b], 0, Id, hit) == [b]
  {
    assert RemoveAt([a, b], 0) == [b];
    assert Sweep([b], 1, Id, hit) == [b];
  }

  /** The checklist toggles: `s.map(x => at(x) ? flip(x) : x)`. */
  function MapWhere<T>(s: seq<T>, at: T -> bool, flip: T -> T): (r: seq<T>)
    ensures |r| == |s|
    ensures forall i :: 0 <= i < |s| ==> r[i] == if at(s[i]) then flip(s[i]) else s[i]
  {
    seq(|s|, i requires 0 <= i < |s| => if at(s[i]) then flip(s[i]) else s[i])
  }

  /** A toggle whose flip undoes itself and keeps what selects the element
      is undone by toggling again. */
  lemma MapWhereTwice<T>(s: seq<T>, at: T -> bool, flip: T -> T)
    requires forall x :: at(flip(x)) == at(x)
    requires forall x :: flip(flip(x)) == x
    ensures MapWhere(MapWhere(s, at, flip), at, flip) == s
  {
  }

  /** n copies of x. */
  function Repeat<T>(x: T, n: nat): (r: seq<T>)
    ensures |r| == n && forall y :: y in r ==> y == x
  {
    if n == 0 then [] else Repeat(x, n - 1) + [x]
  }
}
