/**
 * The array helpers the bot takes from JavaScript and lodash, on sequences:
 * `slice(0, n)`, lodash `chunk` and lodash `uniqBy`.
 */
module Lists {

  /** `s.slice(0, n)`: the first `n` elements, or all of them when there are fewer. */
  function Take<T>(s: seq<T>, n: nat): (r: seq<T>)
    ensures |r| == if |s| < n then |s| else n
    ensures r == s[..|r|]
  {
    if |s| <= n then s else s[..n]
  }

  // ---------------------------------------------------------------------
  // filter
  // ---------------------------------------------------------------------

  /** `s.filter(p)`: the elements satisfying `p`, in order. */
  function Filter<T>(s: seq<T>, p: T -> bool): (r: seq<T>)
    ensures |r| <= |s|
    ensures forall i :: 0 <= i < |r| ==> p(r[i])
    decreases |s|
  {
    if s == [] then []
    else
      var init := Filter(s[..|s| - 1], p);
      if p(s[|s| - 1]) then init + [s[|s| - 1]] else init
  }

  /** An element is kept exactly when it is in the input and satisfies `p`. */
  lemma {:induction false} FilterMembers<T>(s: seq<T>, p: T -> bool, x: T)
    ensures x in Filter(s, p) <==> x in s && p(x)
    decreases |s|
  {
    if s != [] {
      var init := s[..|s| - 1];
      FilterMembers(init, p, x);
      assert s == init + [s[|s| - 1]];
    }
  }

  /** filter keeps every copy of a passing element and no copy of a failing one. */
  lemma {:induction false} FilterCount<T>(s: seq<T>, p: T -> bool, x: T)
    ensures multiset(Filter(s, p))[x] == if p(x) then multiset(s)[x] else 0
    decreases |s|
  {
    if s != [] {
      var init, last := s[..|s| - 1], s[|s| - 1];
      assert s == init + [last];
      FilterCount(init, p, x);
      assert multiset(s) == multiset(init) + multiset{last};
    }
  }

  /** When every element satisfies `p`, filter keeps them all. */
  lemma {:induction false} FilterAll<T>(s: seq<T>, p: T -> bool)
    requires forall i :: 0 <= i < |s| ==> p(s[i])
    ensures Filter(s, p) == s
    decreases |s|
  {
    if s != [] {
      var init := s[..|s| - 1];
      FilterAll(init, p);
      assert s == init + [s[|s| - 1]];
    }
  }

  /** filter keeps the kept elements in their order. */
  lemma {:induction false} FilterSubsequence<T>(s: seq<T>, p: T -> bool)
    ensures IsSubsequence(Filter(s, p), s)
    decreases |s|
  {
    if s != [] {
      var init, last := s[..|s| - 1], s[|s| - 1];
      assert init + [last] == s;
      FilterSubsequence(init, p);
      if p(last) {
        SubsequenceSnoc(Filter(init, p), init, last);
      } else {
        SubsequenceExtend(Filter(init, p), init, last);
      }
    }
  }

  // ---------------------------------------------------------------------
  // lodash chunk
  // ---------------------------------------------------------------------

  /** `chunk(s, size)`: consecutive pieces of `size` elements, the last one possibly shorter. */
  function Chunk<T>(s: seq<T>, size: nat): (pages: seq<seq<T>>)
    requires size > 0
    ensures forall i :: 0 <= i < |pages| ==> 0 < |pages[i]| <= size
    decreases |s|
  {
    if |s| == 0 then []
    else if |s| <= size then [s]
    else [s[..size]] + Chunk(s[size..], size)
  }

  /** There are `ceil(|s| / size)` pages: the fewest pages of `size` elements that hold `s`. */
  lemma {:induction false} ChunkCount<T>(s: seq<T>, size: nat)
    requires size > 0
    ensures |s| <= |Chunk(s, size)| * size
    ensures |s| > 0 ==> (|Chunk(s, size)| - 1) * size < |s|
    ensures |s| == 0 <==> |Chunk(s, size)| == 0
    decreases |s|
  {
    if |s| > size {
      var k := |Chunk(s[size..], size)|;
      ChunkCount(s[size..], size);
      assert |Chunk(s, size)| == k + 1;
      assert (k + 1) * size == k * size + size;
    }
  }

  /** Concatenation of a sequence of sequences. */
  function Flatten<T>(pages: seq<seq<T>>): seq<T>
    decreases |pages|
  {
    if pages == [] then [] else pages[0] + Flatten(pages[1..])
  }

  /** The chunks concatenate back to the original sequence. */
  lemma {:induction false} ChunkFlatten<T>(s: seq<T>, size: nat)
    requires size > 0
    ensures Flatten(Chunk(s, size)) == s
    decreases |s|
  {
    if |s| > size {
      ChunkFlatten(s[size..], size);
      assert Chunk(s, size)[1..] == Chunk(s[size..], size);
      assert s[..size] + s[size..] == s;
    } else if |s| > 0 {
      assert Chunk(s, size)[1..] == [];
    }
  }

  /** Page `p` (from 0) holds the elements at positions `size * p` onwards, up to `size` of them. */
  lemma {:induction false} ChunkPage<T>(s: seq<T>, size: nat, p: nat)
    requires size > 0 && p < |Chunk(s, size)|
    ensures p * size < |s|
    ensures Chunk(s, size)[p] == s[p * size..if (p + 1) * size < |s| then (p + 1) * size else |s|]
    decreases p
  {
    if p > 0 {
      var rest := s[size..];
      ChunkPage(rest, size, p - 1);
      assert Chunk(s, size)[p] == Chunk(rest, size)[p - 1];
      var lo, mid := (p - 1) * size, p * size;
      assert lo + size == mid && mid + size == (p + 1) * size;
      var hi := if mid < |rest| then mid else |rest|;
      DropSlice(s, size, lo, hi);
    }
  }

  /** A slice of a suffix is a slice of the whole, shifted. */
  lemma DropSlice<T>(s: seq<T>, k: nat, lo: nat, hi: nat)
    requires k <= |s| && lo <= hi <= |s| - k
    ensures s[k..][lo..hi] == s[k + lo..k + hi]
  {
  }

  // ---------------------------------------------------------------------
  // lodash uniqBy
  // ---------------------------------------------------------------------

  /** `uniqBy(s, key)`: the first element of each key, in order. */
  function UniqBy<T, K(==)>(s: seq<T>, key: T -> K): (r: seq<T>)
    decreases |s|
  {
    if s == [] then []
    else
      var init := UniqBy(s[..|s| - 1], key);
      var last := s[|s| - 1];
      if exists i :: 0 <= i < |init| && key(init[i]) == key(last) then init else init + [last]
  }

  /** The keys of a sequence, as a set. */
  function Keys<T, K>(s: seq<T>, key: T -> K): set<K> {
    set i | 0 <= i < |s| :: key(s[i])
  }

  lemma KeysSnoc<T, K>(s: seq<T>, x: T, key: T -> K)
    ensures Keys(s + [x], key) == Keys(s, key) + {key(x)}
  {
    var t := s + [x];
    forall k | k in Keys(t, key)
      ensures k in Keys(s, key) + {key(x)}
    {
      var i :| 0 <= i < |t| && key(t[i]) == k;
      if i < |s| {
        assert t[i] == s[i];
      }
    }
    forall k | k in Keys(s, key)
      ensures k in Keys(t, key)
    {
      var i :| 0 <= i < |s| && key(s[i]) == k;
      assert t[i] == s[i];
    }
    assert t[|s|] == x;
  }

  /** No two elements share a key. */
  predicate KeysDistinct<T, K(==)>(s: seq<T>, key: T -> K) {
    forall i, j :: 0 <= i < j < |s| ==> key(s[i]) != key(s[j])
  }

  /** `sub` is `s` with some elements left out, the rest in order. */
  predicate IsSubsequence<T(==)>(sub: seq<T>, s: seq<T>)
    decreases |s|
  {
    if sub == [] then true
    else if s == [] then false
    else if sub[|sub| - 1] == s[|s| - 1] then IsSubsequence(sub[..|sub| - 1], s[..|s| - 1])
    else IsSubsequence(sub, s[..|s| - 1])
  }

  /** Appending one element to both sides keeps a subsequence. */
  lemma SubsequenceSnoc<T>(sub: seq<T>, s: seq<T>, x: T)
    requires IsSubsequence(sub, s)
    ensures IsSubsequence(sub + [x], s + [x])
  {
    assert (sub + [x])[..|sub|] == sub;
    assert (s + [x])[..|s|] == s;
  }

  /** Appending to the larger side alone keeps a subsequence. */
  lemma {:induction false} SubsequenceExtend<T>(sub: seq<T>, s: seq<T>, x: T)
    requires IsSubsequence(sub, s)
    ensures IsSubsequence(sub, s + [x])
    decreases |s|, 1
  {
    assert (s + [x])[..|s|] == s;
    if sub != [] && sub[|sub| - 1] == x {
      SubsequenceDropLast(sub, s);
    }
  }

  /** Dropping the last element of a subsequence keeps a subsequence. */
  lemma {:induction false} SubsequenceDropLast<T>(sub: seq<T>, s: seq<T>)
    requires IsSubsequence(sub, s) && sub != []
    ensures IsSubsequence(sub[..|sub| - 1], s)
    decreases |s|, 0
  {
    var init, last := s[..|s| - 1], s[|s| - 1];
    assert init + [last] == s;
    if sub[|sub| - 1] != last {
      SubsequenceDropLast(sub, init);
    }
    SubsequenceExtend(sub[..|sub| - 1], init, last);
  }

  /** A subsequence is never longer. */
  lemma {:induction false} SubsequenceLength<T>(sub: seq<T>, s: seq<T>)
    requires IsSubsequence(sub, s)
    ensures |sub| <= |s|
    decreases |s|
  {
    if sub != [] {
      if sub[|sub| - 1] == s[|s| - 1] {
        SubsequenceLength(sub[..|sub| - 1], s[..|s| - 1]);
      } else {
        SubsequenceLength(sub, s[..|s| - 1]);
      }
    }
  }

  /** Every element of a subsequence is an element of the sequence. */
  lemma {:induction false} SubsequenceElements<T>(sub: seq<T>, s: seq<T>, x: T)
    requires IsSubsequence(sub, s) && x in sub
    ensures x in s
    decreases |s|
  {
    if sub[|sub| - 1] == s[|s| - 1] {
      if x != sub[|sub| - 1] {
        assert sub == sub[..|sub| - 1] + [sub[|sub| - 1]];
        SubsequenceElements(sub[..|sub| - 1], s[..|s| - 1], x);
      }
    } else {
      SubsequenceElements(sub, s[..|s| - 1], x);
    }
  }

  /** uniqBy keeps at most one element per key. */
  lemma {:induction false} UniqByDistinct<T, K>(s: seq<T>, key: T -> K)
    ensures KeysDistinct(UniqBy(s, key), key)
    decreases |s|
  {
    if s != [] {
      UniqByDistinct(s[..|s| - 1], key);
    }
  }

  /** uniqBy keeps elements of the input, in their order. */
  lemma {:induction false} UniqBySubsequence<T, K>(s: seq<T>, key: T -> K)
    ensures IsSubsequence(UniqBy(s, key), s)
    decreases |s|
  {
    if s != [] {
      var init, last := s[..|s| - 1], s[|s| - 1];
      assert init + [last] == s;
      UniqBySubsequence(init, key);
      if UniqBy(s, key) == UniqBy(init, key) {
        SubsequenceExtend(UniqBy(init, key), init, last);
      } else {
        SubsequenceSnoc(UniqBy(init, key), init, last);
      }
    }
  }

  /** Every key of the input is still present after uniqBy. */
  lemma {:induction false} UniqByKeys<T, K>(s: seq<T>, key: T -> K)
    ensures Keys(UniqBy(s, key), key) == Keys(s, key)
    decreases |s|
  {
    if s != [] {
      var init, last := s[..|s| - 1], s[|s| - 1];
      UniqByKeys(init, key);
      var u := UniqBy(init, key);
      assert init + [last] == s;
      KeysSnoc(init, last, key);
      KeysSnoc(u, last, key);
    }
  }

  /** The first element of each key is kept. */
  lemma {:induction false} UniqByKeepsFirst<T, K>(s: seq<T>, key: T -> K, i: int)
    requires 0 <= i < |s|
    requires forall k :: 0 <= k < i ==> key(s[k]) != key(s[i])
    ensures s[i] in UniqBy(s, key)
    decreases |s|
  {
    var init, last := s[..|s| - 1], s[|s| - 1];
    var u := UniqBy(init, key);
    if i < |s| - 1 {
      UniqByKeepsFirst(init, key, i);
    } else {
      UniqBySubsequence(init, key);
      forall j | 0 <= j < |u|
        ensures key(u[j]) != key(last)
      {
        SubsequenceElements(u, init, u[j]);
      }
    }
  }

  /** uniqBy changes nothing when the keys are already distinct, so applying it twice is applying it once. */
  lemma {:induction false} UniqByOfDistinct<T, K>(s: seq<T>, key: T -> K)
    requires KeysDistinct(s, key)
    ensures UniqBy(s, key) == s
    decreases |s|
  {
    if s != [] {
      var init := s[..|s| - 1];
      UniqByOfDistinct(init, key);
      assert s == init + [s[|s| - 1]];
    }
  }

  /** uniqBy is idempotent. */
  lemma UniqByIdempotent<T, K>(s: seq<T>, key: T -> K)
    ensures UniqBy(UniqBy(s, key), key) == UniqBy(s, key)
  {
    UniqByDistinct(s, key);
    UniqByOfDistinct(UniqBy(s, key), key);
  }
}
