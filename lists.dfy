/** Sequence operations shared by the components: `Array.prototype.filter`, the toggle idiom, index removal. */
module Lists {

  /** `a` can be obtained from `b` by deleting elements: `a` keeps the relative order of `b`. */
  ghost predicate IsSubsequence<T(!new)>(a: seq<T>, b: seq<T>)
    decreases |b|
  {
    |a| == 0 ||
    (|b| > 0 && ((a[0] == b[0] && IsSubsequence(a[1..], b[1..])) || IsSubsequence(a, b[1..])))
  }

  /** Every sequence is a subsequence of itself. */
  lemma {:induction false} SubsequenceOfSelf<T(!new)>(s: seq<T>)
    ensures IsSubsequence(s, s)
    decreases |s|
  {
    if |s| > 0 {
      SubsequenceOfSelf(s[1..]);
    }
  }

  /** A subsequence is no longer than the sequence it is taken from. */
  lemma {:induction false} SubsequenceLength<T(!new)>(a: seq<T>, b: seq<T>)
    requires IsSubsequence(a, b)
    ensures |a| <= |b|
    decreases |b|
  {
    if |a| > 0 {
      if a[0] == b[0] && IsSubsequence(a[1..], b[1..]) {
        SubsequenceLength(a[1..], b[1..]);
      } else {
        SubsequenceLength(a, b[1..]);
      }
    }
  }

  /** No element occurs twice. */
  ghost predicate NoDuplicates<T(!new)>(s: seq<T>)
  {
    forall i, j :: 0 <= i < j < |s| ==> s[i] != s[j]
  }

  /** `s.filter(p)`: the elements of `s` that satisfy `p`, in their original order. */
  function Filter<T(!new)>(s: seq<T>, p: T -> bool): (r: seq<T>)
    ensures |r| <= |s|
    ensures forall x :: x in r <==> x in s && p(x)
    ensures forall x :: multiset(r)[x] == if p(x) then multiset(s)[x] else 0
    ensures IsSubsequence(r, s)
  {
    if |s| == 0 then []
    else
      assert s == [s[0]] + s[1..];
      if p(s[0]) then [s[0]] + Filter(s[1..], p)
      else Filter(s[1..], p)
  }

  /** Filtering distributes over concatenation. */
  lemma {:induction false} FilterAppend<T(!new)>(a: seq<T>, b: seq<T>, p: T -> bool)
    ensures Filter(a + b, p) == Filter(a, p) + Filter(b, p)
  {
    if |a| == 0 {
      assert a + b == b;
    } else {
      assert (a + b)[0] == a[0];
      assert (a + b)[1..] == a[1..] + b;
      FilterAppend(a[1..], b, p);
    }
  }

  /** A filter that every element passes changes nothing. */
  lemma {:induction false} FilterKeepsAll<T(!new)>(s: seq<T>, p: T -> bool)
    requires forall x :: x in s ==> p(x)
    ensures Filter(s, p) == s
  {
    if |s| > 0 {
      assert s[0] in s;
      assert forall x :: x in s[1..] ==> x in s;
      FilterKeepsAll(s[1..], p);
    }
  }

  /** Two predicates that agree on the elements of `s` filter it alike. */
  lemma {:induction false} FilterAgree<T(!new)>(s: seq<T>, p: T -> bool, q: T -> bool)
    requires forall x :: x in s ==> p(x) == q(x)
    ensures Filter(s, p) == Filter(s, q)
  {
    if |s| > 0 {
      assert s[0] in s;
      assert forall x :: x in s[1..] ==> x in s;
      FilterAgree(s[1..], p, q);
    }
  }

  /** Narrowing by `p` and then by `q` is one filter by their conjunction `pq`. */
  lemma {:induction false} FilterNarrow<T(!new)>(s: seq<T>, p: T -> bool, q: T -> bool, pq: T -> bool)
    requires forall x :: pq(x) == (p(x) && q(x))
    ensures Filter(Filter(s, p), q) == Filter(s, pq)
  {
    if |s| > 0 {
      FilterNarrow(s[1..], p, q, pq);
      if p(s[0]) {
        assert ([s[0]] + Filter(s[1..], p))[0] == s[0];
        assert ([s[0]] + Filter(s[1..], p))[1..] == Filter(s[1..], p);
      }
    }
  }

  /**
   * One stage of successive narrowing: `filtered` is `Filter(s, kept)`; the stage filters
   * it again by `step` when `active` and leaves it alone otherwise. Either way the result
   * is one filter of `s` by `next`, the conjunction of `kept` and the active stage.
   */
  lemma NarrowStage<T(!new)>(s: seq<T>, kept: T -> bool, step: T -> bool, active: bool, next: T -> bool)
    requires forall x :: next(x) == (kept(x) && (active ==> step(x)))
    ensures (if active then Filter(Filter(s, kept), step) else Filter(s, kept)) == Filter(s, next)
  {
    if active {
      FilterNarrow(s, kept, step, next);
    } else {
      FilterAgree(s, kept, next);
    }
  }

  /** A filter keeps a duplicate-free sequence duplicate-free. */
  lemma {:induction false} FilterNoDuplicates<T(!new)>(s: seq<T>, p: T -> bool)
    requires NoDuplicates(s)
    ensures NoDuplicates(Filter(s, p))
  {
    if |s| > 0 {
      assert NoDuplicates(s[1..]) by {
        forall i, j | 0 <= i < j < |s[1..]| ensures s[1..][i] != s[1..][j] {
          assert s[1..][i] == s[i + 1] && s[1..][j] == s[j + 1];
        }
      }
      FilterNoDuplicates(s[1..], p);
      if p(s[0]) {
        assert s[0] !in s[1..] by {
          forall k | 0 <= k < |s[1..]| ensures s[1..][k] != s[0] {
            assert s[1..][k] == s[k + 1];
          }
        }
        PrependNoDuplicates(s[0], Filter(s[1..], p));
      }
    }
  }

  /** Prepending an element that does not occur keeps a sequence duplicate-free. */
  lemma PrependNoDuplicates<T(!new)>(x: T, s: seq<T>)
    requires NoDuplicates(s) && x !in s
    ensures NoDuplicates([x] + s)
  {
    forall i, j | 0 <= i < j < |[x] + s| ensures ([x] + s)[i] != ([x] + s)[j] {
      if i == 0 {
        assert ([x] + s)[j] == s[j - 1];
      } else {
        assert ([x] + s)[i] == s[i - 1] && ([x] + s)[j] == s[j - 1];
      }
    }
  }

  /** Appending an element that does not occur keeps a sequence duplicate-free. */
  lemma AppendNoDuplicates<T(!new)>(s: seq<T>, x: T)
    requires NoDuplicates(s) && x !in s
    ensures NoDuplicates(s + [x])
  {
    forall i, j | 0 <= i < j < |s + [x]| ensures (s + [x])[i] != (s + [x])[j] {
      assert (s + [x])[i] == s[i];
      if j < |s| {
        assert (s + [x])[j] == s[j];
      } else {
        assert s[i] in s;
      }
    }
  }

  /** `xs.filter(x => x !== v)`: every occurrence of `v` removed. */
  function RemoveAll<T(==,!new)>(xs: seq<T>, v: T): (r: seq<T>)
    ensures forall x :: x in r <==> x in xs && x != v
    ensures forall x :: multiset(r)[x] == if x == v then 0 else multiset(xs)[x]
    ensures IsSubsequence(r, xs)
  {
    Filter(xs, x => x != v)
  }

  /** Removing a value keeps a duplicate-free list duplicate-free. */
  lemma RemoveAllNoDuplicates<T(!new)>(xs: seq<T>, v: T)
    requires NoDuplicates(xs)
    ensures NoDuplicates(RemoveAll(xs, v))
  {
    FilterNoDuplicates(xs, x => x != v);
  }

  /** Removing a value just appended to a list without it gives back the list. */
  lemma RemoveAllAppended<T(!new)>(xs: seq<T>, v: T)
    requires v !in xs
    ensures RemoveAll(xs + [v], v) == xs
  {
    FilterAppend(xs, [v], x => x != v);
    FilterKeepsAll(xs, x => x != v);
  }

  /**
   * The toggle idiom `xs.includes(v) ? xs.filter(x => x !== v) : [...xs, v]`:
   * a present value is removed everywhere, an absent one is appended at the end.
   */
  function Toggle<T(==,!new)>(xs: seq<T>, v: T): (r: seq<T>)
    ensures v in r <==> v !in xs
    ensures forall x :: x != v ==> (x in r <==> x in xs)
    ensures v in xs ==> IsSubsequence(r, xs)
    ensures v in xs ==> forall x :: multiset(r)[x] == if x == v then 0 else multiset(xs)[x]
    ensures v !in xs ==> |r| == |xs| + 1 && r[..|xs|] == xs && r[|xs|] == v
  {
    if v in xs then RemoveAll(xs, v) else xs + [v]
  }

  /** Toggling keeps a duplicate-free list duplicate-free. */
  lemma ToggleNoDuplicates<T(!new)>(xs: seq<T>, v: T)
    requires NoDuplicates(xs)
    ensures NoDuplicates(Toggle(xs, v))
  {
    if v in xs {
      RemoveAllNoDuplicates(xs, v);
    } else {
      AppendNoDuplicates(xs, v);
    }
  }

  /** Toggling an absent value twice gives back the list unchanged. */
  lemma ToggleTwiceAbsent<T(!new)>(xs: seq<T>, v: T)
    requires v !in xs
    ensures Toggle(Toggle(xs, v), v) == xs
  {
    RemoveAllAppended(xs, v);
  }

  /**
   * Toggling a present value twice restores membership, but the value reappears once,
   * at the end: the list is the original with that value moved last.
   */
  lemma ToggleTwicePresent<T(!new)>(xs: seq<T>, v: T)
    requires v in xs
    ensures Toggle(Toggle(xs, v), v) == RemoveAll(xs, v) + [v]
    ensures forall x :: x in Toggle(Toggle(xs, v), v) <==> x in xs
  {
  }

  /** So a double toggle need not be the identity, even on a duplicate-free list. */
  lemma ToggleTwiceMovesToEnd()
    ensures Toggle(Toggle([1, 2], 1), 1) == [2, 1]
  {
    assert 1 in [1, 2];
    assert Filter([1, 2], x => x != 1) == [2] by {
      assert [1, 2][1..] == [2];
      assert [2][1..] == [];
    }
    assert 1 !in [2];
  }

  /** `xs.filter((_, i) => i !== index)`: the entry at `index` deleted, if there is one. */
  function RemoveAt<T>(xs: seq<T>, index: int): (r: seq<T>)
    ensures 0 <= index < |xs| ==> |r| == |xs| - 1
    ensures 0 <= index < |xs| ==> forall k :: 0 <= k < |r| ==> r[k] == xs[if k < index then k else k + 1]
    ensures !(0 <= index < |xs|) ==> r == xs
  {
    if 0 <= index < |xs| then xs[..index] + xs[index + 1..] else xs
  }
}
