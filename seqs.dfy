/** Sequence helpers shared by the modules: `Array.prototype.filter`, `includes` and counting. */
module Seqs {
  import opened Wrappers

  /** `s.findIndex(p)`: the index of the first element satisfying `p`, if any. */
  function FindFirst<T>(s: seq<T>, p: T -> bool): (r: Option<nat>)
    ensures r.Some? ==> r.value < |s| && p(s[r.value])
    ensures r.Some? ==> forall j | 0 <= j < r.value :: !p(s[j])
    ensures r.None? ==> forall j | 0 <= j < |s| :: !p(s[j])
  {
    if |s| == 0 then None
    else if p(s[0]) then Some(0)
    else match FindFirst(s[1..], p)
      case Some(i) => Some(i + 1)
      case None => None
  }

  /** Once a sequence holds a match, appending to it leaves the first match where it was. */
  lemma FindFirstAppend<T>(s: seq<T>, more: seq<T>, p: T -> bool)
    requires exists i | 0 <= i < |s| :: p(s[i])
    ensures FindFirst(s + more, p) == FindFirst(s, p)
  {
    var i :| 0 <= i < |s| && p(s[i]);
    var first := FindFirst(s, p);
    assert first.Some?;
    var n := first.value;
    assert (s + more)[i] == s[i];
    assert (s + more)[n] == s[n];
  }

  /** `s.filter(p)`: the elements satisfying `p`, in their original order. */
  function Filter<T(!new)>(s: seq<T>, p: T -> bool): (r: seq<T>)
    ensures |r| <= |s|
    ensures forall x :: x in r <==> x in s && p(x)
  {
    if |s| == 0 then [] else (if p(s[0]) then [s[0]] else []) + Filter(s[1..], p)
  }

  /**
   * `s.map(f)` where `f` may throw (`None`): every result in order, or `None` as soon as one
   * element fails.
   */
  function MapAll<T, U>(s: seq<T>, f: T -> Option<U>): (r: Option<seq<U>>)
    ensures r.Some? <==> forall i | 0 <= i < |s| :: f(s[i]).Some?
    ensures r.Some? ==> |r.value| == |s| && forall i | 0 <= i < |s| :: f(s[i]) == Some(r.value[i])
  {
    if |s| == 0 then Some([])
    else
      assert forall i | 1 <= i < |s| :: s[i] == s[1..][i - 1];
      match f(s[0])
      case None => None
      case Some(head) =>
        match MapAll(s[1..], f)
        case None => None
        case Some(rest) =>
          assert forall i | 1 <= i < |s| :: ([head] + rest)[i] == rest[i - 1];
          Some([head] + rest)
  }

  /** Filtering distributes over concatenation, so filtering keeps relative order. */
  lemma {:induction false} FilterAppend<T(!new)>(a: seq<T>, b: seq<T>, p: T -> bool)
    ensures Filter(a + b, p) == Filter(a, p) + Filter(b, p)
  {
    if |a| > 0 {
      assert (a + b)[1..] == a[1..] + b;
      FilterAppend(a[1..], b, p);
    } else {
      assert a + b == b;
    }
  }

  /** Filtering twice with the same predicate changes nothing the second time. */
  lemma {:induction false} FilterIdempotent<T(!new)>(s: seq<T>, p: T -> bool)
    ensures Filter(Filter(s, p), p) == Filter(s, p)
  {
    if |s| > 0 {
      FilterIdempotent(s[1..], p);
      var head := if p(s[0]) then [s[0]] else [];
      FilterAppend(head, Filter(s[1..], p), p);
      assert Filter(head, p) == head by {
        if p(s[0]) {
          assert head[1..] == [];
        }
      }
    }
  }

  /** A sequence whose first element fails `p` and whose second passes filters to that second one first. */
  lemma FilterSkipThenKeep<T(!new)>(s: seq<T>, p: T -> bool)
    requires |s| >= 2 && !p(s[0]) && p(s[1])
    ensures |Filter(s, p)| > 0 && Filter(s, p)[0] == s[1]
  {
    assert s[1..][0] == s[1];
  }

  /** When every element satisfies `p`, filtering is the identity. */
  lemma {:induction false} FilterAll<T(!new)>(s: seq<T>, p: T -> bool)
    requires forall i | 0 <= i < |s| :: p(s[i])
    ensures Filter(s, p) == s
  {
    if |s| > 0 {
      FilterAll(s[1..], p);
      assert [s[0]] + s[1..] == s;
    }
  }

  /** When no element satisfies `p`, filtering leaves nothing. */
  lemma {:induction false} FilterNone<T(!new)>(s: seq<T>, p: T -> bool)
    requires forall i | 0 <= i < |s| :: !p(s[i])
    ensures Filter(s, p) == []
  {
    if |s| > 0 {
      FilterNone(s[1..], p);
    }
  }

  /** Number of occurrences of `x` in `s`. */
  function Count<T(==)>(s: seq<T>, x: T): nat {
    if |s| == 0 then 0 else (if s[0] == x then 1 else 0) + Count(s[1..], x)
  }

  lemma {:induction false} CountAppend<T>(a: seq<T>, b: seq<T>, x: T)
    ensures Count(a + b, x) == Count(a, x) + Count(b, x)
  {
    if |a| > 0 {
      assert (a + b)[1..] == a[1..] + b;
      CountAppend(a[1..], b, x);
    } else {
      assert a + b == b;
    }
  }

  lemma {:induction false} CountZero<T>(s: seq<T>, x: T)
    ensures Count(s, x) == 0 <==> x !in s
  {
    if |s| > 0 {
      CountZero(s[1..], x);
      assert s == [s[0]] + s[1..];
    }
  }

  /** No value occurs twice. */
  predicate NoDuplicates<T(==)>(s: seq<T>) {
    forall i, j | 0 <= i < j < |s| :: s[i] != s[j]
  }

  /** `s` with every occurrence of `x` removed: what is left of the other values, in order. */
  function Erase<T(==,!new)>(s: seq<T>, x: T): seq<T> {
    Filter(s, y => y != x)
  }

  /** Erasing distributes over concatenation. */
  lemma EraseAppend<T(!new)>(a: seq<T>, b: seq<T>, x: T)
    ensures Erase(a + b, x) == Erase(a, x) + Erase(b, x)
  {
    FilterAppend(a, b, y => y != x);
  }

  /**
   * `[...new Set(s)]`: each value once, at the place of its first occurrence.
   */
  function Dedup<T(==,!new)>(s: seq<T>): (r: seq<T>)
    ensures NoDuplicates(r)
    ensures forall x :: x in r <==> x in s
    ensures |r| <= |s|
  {
    if |s| == 0 then []
    else
      var d := Dedup(s[..|s| - 1]);
      assert forall x :: x in s <==> x in s[..|s| - 1] || x == s[|s| - 1];
      if s[|s| - 1] in d then d else d + [s[|s| - 1]]
  }

  /**
   * The values of every prefix come first and in the same order: values appear in the order
   * of their first occurrences.
   */
  lemma {:induction false} DedupPrefix<T(!new)>(s: seq<T>, k: nat)
    requires k <= |s|
    ensures Dedup(s[..k]) <= Dedup(s)
    decreases |s| - k
  {
    if k < |s| {
      DedupPrefix(s[..|s| - 1], k);
      assert s[..|s| - 1][..k] == s[..k];
      assert s[..|s|] == s;
    } else {
      assert s[..k] == s;
    }
  }

  /** A sequence without repeated values is its own de-duplication. */
  lemma {:induction false} DedupDistinct<T(!new)>(s: seq<T>)
    requires NoDuplicates(s)
    ensures Dedup(s) == s
  {
    if |s| > 0 {
      DedupDistinct(s[..|s| - 1]);
      assert s[|s| - 1] !in s[..|s| - 1];
      assert s[..|s| - 1] + [s[|s| - 1]] == s;
    }
  }

  /** A value already present adds nothing when it comes again. */
  lemma DedupRepeat<T(!new)>(s: seq<T>, x: T)
    requires x in s
    ensures Dedup(s + [x]) == Dedup(s)
  {
    assert (s + [x])[..|s|] == s;
  }

  /** Concatenation regroups freely. */
  lemma AppendAssoc<T>(a: seq<T>, b: seq<T>, c: seq<T>)
    ensures a + (b + c) == (a + b) + c
  {
  }
}
