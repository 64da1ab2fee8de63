// Optional values and the generic sequence operations that the content store and
// the pages use (JavaScript's filter, findIndex, find and slice on arrays).

module Optional {
  /** A value that may be absent: an optional field of a record, or the result of a lookup. */
  datatype Option<+T> = None | Some(value: T)
}

module Lists {
  import opened Optional

  /** True when no element before position `j` satisfies `p`. */
  ghost predicate NoneBefore<T>(xs: seq<T>, p: T -> bool, j: int)
    requires j <= |xs|
  {
    forall k :: 0 <= k < j ==> !p(xs[k])
  }

  /** The elements of `xs` that satisfy `p`, in their original order (Array.prototype.filter). */
  function Filter<T>(xs: seq<T>, p: T -> bool): seq<T>
  {
    if xs == [] then []
    else if p(xs[0]) then [xs[0]] + Filter(xs[1..], p)
    else Filter(xs[1..], p)
  }

  /** The filter never lengthens the sequence. */
  lemma {:induction false} FilterShrinks<T>(xs: seq<T>, p: T -> bool)
    ensures |Filter(xs, p)| <= |xs|
  {
    if xs != [] {
      FilterShrinks(xs[1..], p);
    }
  }

  /** Every element the filter keeps satisfies `p`. */
  lemma {:induction false} FilterSatisfies<T>(xs: seq<T>, p: T -> bool)
    ensures forall i :: 0 <= i < |Filter(xs, p)| ==> p(Filter(xs, p)[i])
  {
    if xs != [] {
      FilterSatisfies(xs[1..], p);
    }
  }

  /** The filter keeps exactly the elements that satisfy `p`. */
  lemma {:induction false} FilterMembers<T>(xs: seq<T>, p: T -> bool)
    ensures forall i :: 0 <= i < |Filter(xs, p)| ==> Filter(xs, p)[i] in xs && p(Filter(xs, p)[i])
    ensures forall i :: 0 <= i < |xs| && p(xs[i]) ==> xs[i] in Filter(xs, p)
  {
    FilterSatisfies(xs, p);
    if xs != [] {
      FilterMembers(xs[1..], p);
      var r := Filter(xs, p);
      var t := Filter(xs[1..], p);
      forall i | 0 <= i < |r| ensures r[i] in xs {
        if p(xs[0]) && i == 0 {
        } else {
          var k := if p(xs[0]) then i - 1 else i;
          assert r[i] == t[k];
          assert t[k] in xs[1..];
        }
      }
      forall i | 0 <= i < |xs| && p(xs[i]) ensures xs[i] in r {
        if i > 0 {
          assert xs[i] == xs[1..][i - 1];
        }
      }
    }
  }

  /** The filter keeps every occurrence of each element that satisfies `p`. */
  lemma {:induction false} FilterCounts<T>(xs: seq<T>, p: T -> bool)
    ensures forall x :: p(x) ==> multiset(Filter(xs, p))[x] == multiset(xs)[x]
  {
    if xs != [] {
      FilterCounts(xs[1..], p);
      assert xs == [xs[0]] + xs[1..];
    }
  }

  /** Filtering a sequence with a known first element. */
  lemma FilterCons<T>(x: T, xs: seq<T>, p: T -> bool)
    ensures Filter([x] + xs, p) == if p(x) then [x] + Filter(xs, p) else Filter(xs, p)
  {
    assert ([x] + xs)[1..] == xs;
  }

  /** `a` is obtained from `b` by deleting elements, keeping the order of the rest. */
  ghost predicate IsSubsequence<T>(a: seq<T>, b: seq<T>)
    decreases |b|
  {
    if b == [] then a == []
    else (a != [] && a[0] == b[0] && IsSubsequence(a[1..], b[1..])) || IsSubsequence(a, b[1..])
  }

  /** Every sequence is a subsequence of itself. */
  lemma {:induction false} IsSubsequenceRefl<T>(xs: seq<T>)
    ensures IsSubsequence(xs, xs)
  {
    if xs != [] {
      IsSubsequenceRefl(xs[1..]);
    }
  }

  /** The empty sequence is a subsequence of every sequence. */
  lemma {:induction false} EmptyIsSubsequence<T>(xs: seq<T>)
    ensures IsSubsequence([], xs)
  {
    if xs != [] {
      EmptyIsSubsequence(xs[1..]);
    }
  }

  /** A subsequence of a subsequence is a subsequence. */
  lemma {:induction false} IsSubsequenceTrans<T>(a: seq<T>, b: seq<T>, c: seq<T>)
    requires IsSubsequence(a, b) && IsSubsequence(b, c)
    ensures IsSubsequence(a, c)
    decreases |c|
  {
    if c != [] {
      if b != [] && b[0] == c[0] && IsSubsequence(b[1..], c[1..]) {
        if a != [] && a[0] == b[0] && IsSubsequence(a[1..], b[1..]) {
          IsSubsequenceTrans(a[1..], b[1..], c[1..]);
        } else {
          IsSubsequenceTrans(a, b[1..], c[1..]);
        }
      } else {
        IsSubsequenceTrans(a, b, c[1..]);
      }
    }
  }

  /** A filter never reorders: it is a subsequence of its input. */
  lemma {:induction false} FilterIsSubsequence<T>(xs: seq<T>, p: T -> bool)
    ensures IsSubsequence(Filter(xs, p), xs)
  {
    if xs != [] {
      FilterIsSubsequence(xs[1..], p);
      if p(xs[0]) {
        assert Filter(xs, p)[1..] == Filter(xs[1..], p);
      }
    }
  }

  /** Filtering with a predicate that every element satisfies returns the input unchanged. */
  lemma {:induction false} FilterKeepsAll<T>(xs: seq<T>, p: T -> bool)
    requires forall i :: 0 <= i < |xs| ==> p(xs[i])
    ensures Filter(xs, p) == xs
  {
    if xs != [] {
      FilterKeepsAll(xs[1..], p);
    }
  }

  /** Filtering with two tests that agree on every element gives the same result. */
  lemma {:induction false} FilterSameTest<T>(xs: seq<T>, p: T -> bool, q: T -> bool)
    requires forall i :: 0 <= i < |xs| ==> p(xs[i]) == q(xs[i])
    ensures Filter(xs, p) == Filter(xs, q)
  {
    if xs != [] {
      FilterSameTest(xs[1..], p, q);
    }
  }

  /** Filtering distributes over concatenation. */
  lemma {:induction false} FilterAppend<T>(xs: seq<T>, ys: seq<T>, p: T -> bool)
    ensures Filter(xs + ys, p) == Filter(xs, p) + Filter(ys, p)
  {
    if xs == [] {
      assert xs + ys == ys;
    } else {
      assert (xs + ys)[1..] == xs[1..] + ys;
      FilterAppend(xs[1..], ys, p);
    }
  }

  /** Position of the first element satisfying `p`, or -1 (Array.prototype.findIndex). */
  function IndexOfFirst<T>(xs: seq<T>, p: T -> bool): (r: int)
    ensures -1 <= r < |xs|
    ensures r == -1 <==> forall j :: 0 <= j < |xs| ==> !p(xs[j])
    ensures 0 <= r ==> p(xs[r]) && NoneBefore(xs, p, r)
  {
    if xs == [] then -1
    else if p(xs[0]) then 0
    else
      var k := IndexOfFirst(xs[1..], p);
      if k == -1 then -1 else k + 1
  }

  /** The first index satisfying `p` is `k` when `xs[k]` does and nothing before it does. */
  lemma IndexOfFirstAt<T>(xs: seq<T>, p: T -> bool, k: int)
    requires 0 <= k < |xs| && p(xs[k])
    requires forall j :: 0 <= j < k ==> !p(xs[j])
    ensures IndexOfFirst(xs, p) == k
  {
  }

  /** The first element satisfying `p`, if any (Array.prototype.find). */
  function Find<T>(xs: seq<T>, p: T -> bool): (r: Option<T>)
    ensures r.None? <==> forall j :: 0 <= j < |xs| ==> !p(xs[j])
    ensures r.Some? ==> exists j :: 0 <= j < |xs| && xs[j] == r.value && p(xs[j]) && NoneBefore(xs, p, j)
  {
    var i := IndexOfFirst(xs, p);
    if i == -1 then None else Some(xs[i])
  }

  /** `xs` with its first element satisfying `p` replaced by `item`; unchanged when none does
      (findIndex followed by an indexed assignment when the index is not -1). */
  function ReplaceFirst<T>(xs: seq<T>, p: T -> bool, item: T): (r: seq<T>)
    ensures |r| == |xs|
    ensures forall j :: 0 <= j < |xs| ==> r[j] == if p(xs[j]) && NoneBefore(xs, p, j) then item else xs[j]
  {
    var i := IndexOfFirst(xs, p);
    if i == -1 then xs else xs[i := item]
  }

  /** Without a matching element, replacing changes nothing. */
  lemma ReplaceFirstAbsent<T>(xs: seq<T>, p: T -> bool, item: T)
    requires forall j :: 0 <= j < |xs| ==> !p(xs[j])
    ensures ReplaceFirst(xs, p, item) == xs
  {
  }

  /** JavaScript's relative index for slice: negative counts from the end, clamped to [0, len]. */
  function RelativeIndex(len: nat, i: int): (r: nat)
    ensures r <= len
    ensures 0 <= i ==> r == if i < len then i else len
    ensures i < 0 ==> r == if len + i < 0 then 0 else len + i
  {
    if i < 0 then (if len + i < 0 then 0 else len + i)
    else if i < len then i
    else len
  }

  /** Array.prototype.slice(start, end). */
  function JsSlice<T>(xs: seq<T>, start: int, end: int): (r: seq<T>)
    ensures |r| <= |xs|
    ensures |r| == var from, to := RelativeIndex(|xs|, start), RelativeIndex(|xs|, end);
                   if to <= from then 0 else to - from
    ensures forall k :: 0 <= k < |r| ==> RelativeIndex(|xs|, start) + k < |xs| && r[k] == xs[RelativeIndex(|xs|, start) + k]
  {
    var from, to := RelativeIndex(|xs|, start), RelativeIndex(|xs|, end);
    if to <= from then [] else xs[from..to]
  }

  /** slice(0, n) with n >= 0 is the first min(n, |xs|) elements. */
  lemma PrefixSlice<T>(xs: seq<T>, n: int)
    requires 0 <= n
    ensures JsSlice(xs, 0, n) == xs[..if n < |xs| then n else |xs|]
  {
  }

  /** slice(0, n) with n < 0 drops the last -n elements. */
  lemma NegativePrefixSlice<T>(xs: seq<T>, n: int)
    requires n < 0
    ensures JsSlice(xs, 0, n) == if |xs| + n <= 0 then [] else xs[..|xs| + n]
  {
  }

  /** The sequence without position `i`; unchanged when `i` is out of range
      (xs.filter((_, k) => k !== i)). */
  function RemoveAt<T>(xs: seq<T>, i: int): (r: seq<T>)
    ensures 0 <= i < |xs| ==>
              |r| == |xs| - 1
              && (forall k :: 0 <= k < i ==> r[k] == xs[k])
              && (forall k :: i <= k < |r| ==> r[k] == xs[k + 1])
    ensures !(0 <= i < |xs|) ==> r == xs
  {
    if 0 <= i < |xs| then xs[..i] + xs[i + 1..] else xs
  }

  /** No two elements have the same key. */
  ghost predicate UniqueKeys<T>(xs: seq<T>, key: T -> string)
  {
    forall i, j :: 0 <= i < j < |xs| ==> key(xs[i]) != key(xs[j])
  }
}
