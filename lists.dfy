/** Sequence helpers shared by the model: the `filter`, `includes` and
    `new Set(...)` behaviour of JavaScript arrays, stated over `seq`. */
module Lists {

  /** `xs.filter(p)`: the elements satisfying `p`, in their original order. */
  function Filter<T>(xs: seq<T>, p: T -> bool): (r: seq<T>)
    ensures |r| <= |xs|
    ensures forall k :: 0 <= k < |r| ==> r[k] in xs && p(r[k])
    ensures forall k :: 0 <= k < |xs| && p(xs[k]) ==> xs[k] in r
  {
    if xs == [] then []
    else if p(xs[0]) then [xs[0]] + Filter(xs[1..], p)
    else Filter(xs[1..], p)
  }

  /** Filtering keeps every copy of a kept element and no copy of a dropped
      one. */
  lemma {:induction false} FilterMultiset<T>(xs: seq<T>, p: T -> bool)
    ensures forall x :: multiset(Filter(xs, p))[x] == if p(x) then multiset(xs)[x] else 0
  {
    if xs != [] {
      FilterMultiset(xs[1..], p);
      assert xs == [xs[0]] + xs[1..];
    }
  }

  /** `a` is obtained from `b` by deleting some elements, keeping order. */
  predicate IsSubsequence<T(==)>(a: seq<T>, b: seq<T>)
  {
    if a == [] then true
    else if b == [] then false
    else if a[0] == b[0] then IsSubsequence(a[1..], b[1..])
    else IsSubsequence(a, b[1..])
  }

  lemma {:induction false} FilterIsSubsequence<T>(xs: seq<T>, p: T -> bool)
    ensures IsSubsequence(Filter(xs, p), xs)
  {
    if xs != [] {
      FilterIsSubsequence(xs[1..], p);
      if !p(xs[0]) {
        SubsequenceOfTail(Filter(xs[1..], p), xs);
      }
    }
  }

  /** A subsequence of the tail is a subsequence of the whole sequence. */
  lemma {:induction false} SubsequenceOfTail<T>(a: seq<T>, b: seq<T>)
    requires b != [] && IsSubsequence(a, b[1..])
    ensures IsSubsequence(a, b)
  {
    if a != [] && a[0] == b[0] {
      // b[1..] is nonempty here: a[0] must match an element of it
      SubsequenceTailStep(a, b[1..]);
    }
  }

  /** If `a` (nonempty) is a subsequence of `b`, so is `a[1..]`. */
  lemma {:induction false} SubsequenceTailStep<T>(a: seq<T>, b: seq<T>)
    requires a != [] && IsSubsequence(a, b)
    ensures IsSubsequence(a[1..], b)
  {
    assert b != [];
    if a[0] == b[0] {
      if a[1..] != [] {
        SubsequenceOfTail(a[1..], b);
      }
    } else {
      SubsequenceTailStep(a, b[1..]);
      if a[1..] != [] {
        SubsequenceOfTail(a[1..], b);
      }
    }
  }

  /** Being a subsequence is transitive. */
  lemma {:induction false} SubsequenceTrans<T>(a: seq<T>, b: seq<T>, c: seq<T>)
    requires IsSubsequence(a, b) && IsSubsequence(b, c)
    ensures IsSubsequence(a, c)
    decreases |c|
  {
    if a != [] {
      assert b != [] && c != [];
      if b[0] == c[0] {
        if a[0] == b[0] {
          SubsequenceTrans(a[1..], b[1..], c[1..]);
        } else {
          SubsequenceTrans(a, b[1..], c[1..]);
          SubsequenceOfTail(a, c);
        }
      } else {
        SubsequenceTrans(a, b, c[1..]);
        SubsequenceOfTail(a, c);
      }
    }
  }

  /** `xs.slice(0, n)` */
  function Take<T>(xs: seq<T>, n: nat): (r: seq<T>)
    ensures |r| <= n && r <= xs
    ensures |xs| <= n ==> r == xs
  {
    if |xs| <= n then xs else xs[..n]
  }

  /** A prefix is a subsequence. */
  lemma {:induction false} PrefixIsSubsequence<T>(a: seq<T>, b: seq<T>)
    requires a <= b
    ensures IsSubsequence(a, b)
  {
    if a != [] {
      PrefixIsSubsequence(a[1..], b[1..]);
    }
  }

  /** Filtering keeps everything when every element passes. */
  lemma {:induction false} FilterAll<T>(xs: seq<T>, p: T -> bool)
    requires forall k :: 0 <= k < |xs| ==> p(xs[k])
    ensures Filter(xs, p) == xs
  {
    if xs != [] {
      FilterAll(xs[1..], p);
    }
  }

  /** Filtering a sequence with no duplicates leaves no duplicates. */
  lemma {:induction false} FilterNoDup<T>(xs: seq<T>, p: T -> bool)
    requires NoDup(xs)
    ensures NoDup(Filter(xs, p))
  {
    if xs != [] {
      FilterNoDup(xs[1..], p);
    }
  }

  /** No value occurs twice. */
  predicate NoDup<T(==)>(xs: seq<T>)
  {
    forall i, j :: 0 <= i < j < |xs| ==> xs[i] != xs[j]
  }

  /** `xs.filter(x => x !== v)` */
  function RemoveAll<T(==)>(xs: seq<T>, v: T): (r: seq<T>)
    ensures v !in r
    ensures forall k :: 0 <= k < |r| ==> r[k] in xs
    ensures forall k :: 0 <= k < |xs| && xs[k] != v ==> xs[k] in r
    ensures v !in xs ==> r == xs
  {
    if xs == [] then []
    else if xs[0] == v then RemoveAll(xs[1..], v)
    else [xs[0]] + RemoveAll(xs[1..], v)
  }

  lemma {:induction false} RemoveAllNoDup<T>(xs: seq<T>, v: T)
    requires NoDup(xs)
    ensures NoDup(RemoveAll(xs, v))
  {
    if xs != [] {
      RemoveAllNoDup(xs[1..], v);
      assert xs[0] !in xs[1..];
    }
  }

  lemma {:induction false} RemoveAllIsSubsequence<T>(xs: seq<T>, v: T)
    ensures IsSubsequence(RemoveAll(xs, v), xs)
  {
    if xs != [] {
      RemoveAllIsSubsequence(xs[1..], v);
      if xs[0] == v && RemoveAll(xs[1..], v) != [] {
        SubsequenceOfTail(RemoveAll(xs, v), xs);
      }
    }
  }

  /** `xs.includes(v) ? xs : [...xs, v]` */
  function AppendIfAbsent<T(==)>(xs: seq<T>, v: T): (r: seq<T>)
    ensures v in r
    ensures v in xs ==> r == xs
    ensures v !in xs ==> r == xs + [v]
    ensures NoDup(xs) ==> NoDup(r)
  {
    if v in xs then xs else xs + [v]
  }

  /** The index of the first occurrence of `x`, like `indexOf`. */
  function FirstIndex<T(==)>(xs: seq<T>, x: T): (k: nat)
    requires x in xs
    ensures k < |xs| && xs[k] == x
    ensures forall j :: 0 <= j < k ==> xs[j] != x
  {
    if xs[0] == x then 0 else 1 + FirstIndex(xs[1..], x)
  }

  /** `Array.from(new Set(xs))`: each value once, at the place it first
      occurs. Defined by adding the elements left to right, as the `Set`
      constructor does. */
  function Dedup<T(==)>(xs: seq<T>): seq<T>
  {
    if xs == [] then []
    else
      var d := Dedup(xs[..|xs| - 1]);
      if xs[|xs| - 1] in d then d else d + [xs[|xs| - 1]]
  }

  lemma {:induction false} DedupMembers<T>(xs: seq<T>)
    ensures forall k :: 0 <= k < |Dedup(xs)| ==> Dedup(xs)[k] in xs
    ensures forall k :: 0 <= k < |xs| ==> xs[k] in Dedup(xs)
  {
    if xs != [] {
      var init := xs[..|xs| - 1];
      DedupMembers(init);
      assert xs == init + [xs[|xs| - 1]];
      forall k | 0 <= k < |xs| ensures xs[k] in Dedup(xs) {
        if k < |init| {
          assert xs[k] == init[k];
        }
      }
    }
  }

  lemma DedupContains<T>(xs: seq<T>, x: T)
    ensures x in Dedup(xs) <==> x in xs
  {
    DedupMembers(xs);
    if x in xs {
      var k := FirstIndex(xs, x);
      assert xs[k] in Dedup(xs);
    }
    if x in Dedup(xs) {
      var k :| 0 <= k < |Dedup(xs)| && Dedup(xs)[k] == x;
      assert Dedup(xs)[k] in xs;
    }
  }

  lemma {:induction false} DedupNoDup<T>(xs: seq<T>)
    ensures NoDup(Dedup(xs))
  {
    if xs != [] {
      DedupNoDup(xs[..|xs| - 1]);
    }
  }

  /** Deduplicating a sequence without duplicates changes nothing. */
  lemma {:induction false} DedupOfNoDup<T>(xs: seq<T>)
    requires NoDup(xs)
    ensures Dedup(xs) == xs
  {
    if xs != [] {
      var init := xs[..|xs| - 1];
      DedupOfNoDup(init);
      assert xs[|xs| - 1] !in init by {
        forall k | 0 <= k < |init| ensures init[k] != xs[|xs| - 1] {
          assert xs[k] != xs[|xs| - 1];
        }
      }
      assert xs == init + [xs[|xs| - 1]];
    }
  }

  /** Dedup keeps first-occurrence order: earlier in the result means
      first seen earlier in the input. */
  lemma {:induction false} DedupFirstOccurrenceOrder<T>(xs: seq<T>, i: nat, j: nat)
    requires i < j < |Dedup(xs)|
    ensures Dedup(xs)[i] in xs && Dedup(xs)[j] in xs
    ensures FirstIndex(xs, Dedup(xs)[i]) < FirstIndex(xs, Dedup(xs)[j])
  {
    DedupMembers(xs);
    var init := xs[..|xs| - 1];
    var d := Dedup(init);
    var last := xs[|xs| - 1];
    DedupMembers(init);
    if last in d || j < |d| {
      assert Dedup(xs)[i] == d[i] && Dedup(xs)[j] == d[j];
      DedupFirstOccurrenceOrder(init, i, j);
      FirstIndexPrefix(init, xs, d[i]);
      FirstIndexPrefix(init, xs, d[j]);
    } else {
      assert Dedup(xs)[j] == last && j == |d|;
      assert d[i] in init;
      FirstIndexPrefix(init, xs, d[i]);
      FirstIndexOfNew(init, xs, last);
    }
  }

  /** The first occurrence of a value of a prefix is the same in the whole. */
  lemma {:induction false} FirstIndexPrefix<T>(p: seq<T>, xs: seq<T>, x: T)
    requires p <= xs && x in p
    ensures x in xs && FirstIndex(xs, x) == FirstIndex(p, x) < |p|
  {
    if p[0] != x {
      FirstIndexPrefix(p[1..], xs[1..], x);
    }
  }

  /** A value absent from a prefix first occurs at or after its end. */
  lemma {:induction false} FirstIndexOfNew<T>(p: seq<T>, xs: seq<T>, x: T)
    requires p <= xs && x in xs && x !in p
    ensures FirstIndex(xs, x) >= |p|
  {
    if p != [] {
      assert xs[0] == p[0] != x;
      FirstIndexOfNew(p[1..], xs[1..], x);
    }
  }
}
