/** Sequence helpers shared by the services: selecting the elements a mask marks, counting marks in a
    prefix, and cutting a sequence into consecutive batches. */
module Seqs {

  /** Number of entries of `mask` equal to `want`. */
  function Count(mask: seq<bool>, want: bool): (n: nat)
    ensures n <= |mask|
  {
    if mask == [] then 0 else Count(mask[..|mask| - 1], want) + (if mask[|mask| - 1] == want then 1 else 0)
  }

  /** One more mask entry adds one to the count exactly when it is `want`. */
  lemma CountSnoc(mask: seq<bool>, want: bool, i: nat)
    requires i < |mask|
    ensures Count(mask[..i + 1], want) == Count(mask[..i], want) + (if mask[i] == want then 1 else 0)
  {
    assert mask[..i + 1][..i] == mask[..i];
  }

  /** Every entry is counted on exactly one side. */
  lemma {:induction false} CountSplits(mask: seq<bool>)
    ensures Count(mask, true) + Count(mask, false) == |mask|
  {
    if mask != [] {
      CountSplits(mask[..|mask| - 1]);
    }
  }

  /** The elements of `xs` whose mask entry is `want`, in their original order. */
  function Select<T>(xs: seq<T>, mask: seq<bool>, want: bool): (r: seq<T>)
    requires |xs| == |mask|
    ensures |r| == Count(mask, want)
  {
    if xs == [] then []
    else Select(xs[..|xs| - 1], mask[..|mask| - 1], want) + (if mask[|xs| - 1] == want then [xs[|xs| - 1]] else [])
  }

  /** Appending one element with its mask entry extends the selection by that element when it is
      selected. */
  lemma SelectAppend<T>(xs: seq<T>, x: T, mask: seq<bool>, b: bool, want: bool)
    requires |xs| == |mask|
    ensures Select(xs + [x], mask + [b], want) == Select(xs, mask, want) + (if b == want then [x] else [])
  {
    assert (xs + [x])[..|xs|] == xs;
    assert (mask + [b])[..|mask|] == mask;
  }

  /** Extending the prefix by one element extends the selection by that element when it is selected. */
  lemma SelectSnoc<T>(xs: seq<T>, mask: seq<bool>, want: bool, i: nat)
    requires |xs| == |mask| && i < |xs|
    ensures Select(xs[..i + 1], mask[..i + 1], want) ==
      Select(xs[..i], mask[..i], want) + (if mask[i] == want then [xs[i]] else [])
  {
    assert xs[..i + 1][..i] == xs[..i];
    assert mask[..i + 1][..i] == mask[..i];
  }

  /** The selection from a prefix is a prefix of the selection from the whole. */
  lemma {:induction false} SelectPrefix<T>(xs: seq<T>, mask: seq<bool>, want: bool, i: nat)
    requires |xs| == |mask| && i <= |xs|
    ensures var p, r := Select(xs[..i], mask[..i], want), Select(xs, mask, want);
      |p| <= |r| && r[..|p|] == p
    decreases |xs| - i
  {
    if i < |xs| {
      SelectPrefix(xs, mask, want, i + 1);
      SelectSnoc(xs, mask, want, i);
      var p, q, r := Select(xs[..i], mask[..i], want), Select(xs[..i + 1], mask[..i + 1], want), Select(xs, mask, want);
      assert r[..|p|] == q[..|p|];
    } else {
      assert xs[..i] == xs && mask[..i] == mask;
    }
  }

  /** An element whose mask entry is `want` sits in the selection at the position given by the number
      of `want` entries before it. */
  lemma SelectAt<T>(xs: seq<T>, mask: seq<bool>, want: bool, i: nat)
    requires |xs| == |mask| && i < |xs| && mask[i] == want
    ensures Count(mask[..i], want) < Count(mask, want)
    ensures Select(xs, mask, want)[Count(mask[..i], want)] == xs[i]
  {
    SelectPrefix(xs, mask, want, i + 1);
    SelectSnoc(xs, mask, want, i);
    assert |Select(xs[..i], mask[..i], want)| == Count(mask[..i], want);
    assert xs[..i + 1][..i] == xs[..i];
  }

  /** `xs` cut into consecutive pieces of `n` elements, the last one possibly shorter. */
  function Slices<T>(xs: seq<T>, n: nat): (r: seq<seq<T>>)
    requires n > 0
    decreases |xs|
  {
    if xs == [] then []
    else if |xs| <= n then [xs]
    else [xs[..n]] + Slices(xs[n..], n)
  }

  function Flatten<T>(xss: seq<seq<T>>): seq<T> {
    if xss == [] then [] else xss[0] + Flatten(xss[1..])
  }

  /** The pieces put back together give `xs`. */
  lemma {:induction false} SlicesFlatten<T>(xs: seq<T>, n: nat)
    requires n > 0
    ensures Flatten(Slices(xs, n)) == xs
    decreases |xs|
  {
    if xs == [] {
    } else if |xs| <= n {
      assert Flatten(Slices(xs, n)) == xs + [];
    } else {
      SlicesFlatten(xs[n..], n);
      var rest := Slices(xs[n..], n);
      assert Slices(xs, n) == [xs[..n]] + rest;
      assert Slices(xs, n)[1..] == rest;
      assert xs[..n] + xs[n..] == xs;
    }
  }

  /** Each piece holds between 1 and `n` elements, and only the last may be shorter than `n`. */
  lemma {:induction false} SlicesSizes<T>(xs: seq<T>, n: nat)
    requires n > 0
    ensures forall k :: 0 <= k < |Slices(xs, n)| ==> 0 < |Slices(xs, n)[k]| <= n
    ensures forall k :: 0 <= k < |Slices(xs, n)| - 1 ==> |Slices(xs, n)[k]| == n
    decreases |xs|
  {
    if |xs| > n {
      SlicesSizes(xs[n..], n);
      var sl, rest := Slices(xs, n), Slices(xs[n..], n);
      assert sl == [xs[..n]] + rest;
      forall k | 1 <= k < |sl|
        ensures sl[k] == rest[k - 1]
      {
      }
    }
  }

  /** There are as many pieces as `n` goes into the length, rounded up. */
  lemma {:induction false} SlicesCount<T>(xs: seq<T>, n: nat)
    requires n > 0
    ensures (|Slices(xs, n)| - 1) * n < |xs| <= |Slices(xs, n)| * n || xs == []
    decreases |xs|
  {
    if |xs| > n {
      SlicesCount(xs[n..], n);
      var m := |Slices(xs[n..], n)|;
      assert |Slices(xs, n)| == m + 1;
      assert (m + 1) * n == m * n + n;
    }
  }

  lemma AppendAssociates<T>(a: seq<T>, b: seq<T>, c: seq<T>)
    ensures (a + b) + c == a + (b + c)
  {
  }

  /** A longer prefix is the shorter one followed by the slice between them. */
  lemma PrefixExtend<T>(xs: seq<T>, i: nat, hi: nat)
    requires i <= hi <= |xs|
    ensures xs[..hi] == xs[..i] + xs[i..hi]
  {
  }

  /** The prefix up to the end is everything and the suffix from the end is empty. */
  lemma Whole<T>(xs: seq<T>)
    ensures xs[..|xs|] == xs && xs[|xs|..] == []
  {
  }

  /** A prefix one longer is the prefix followed by the next element. */
  lemma PrefixSnoc<T>(xs: seq<T>, i: nat)
    requires i < |xs|
    ensures xs[..i + 1] == xs[..i] + [xs[i]]
  {
  }

  /** A prefix of the mask never has more `want` entries than the whole. */
  lemma {:induction false} CountPrefix(mask: seq<bool>, want: bool, i: nat)
    requires i <= |mask|
    ensures Count(mask[..i], want) <= Count(mask, want)
    decreases |mask| - i
  {
    if i < |mask| {
      CountSnoc(mask, want, i);
      CountPrefix(mask, want, i + 1);
    } else {
      assert mask[..i] == mask;
    }
  }

  /** A mask that marks every element selects everything; one that marks none selects nothing. */
  lemma {:induction false} SelectUniform<T>(xs: seq<T>, mask: seq<bool>, want: bool)
    requires |xs| == |mask|
    ensures (forall i :: 0 <= i < |mask| ==> mask[i] == want) ==> Select(xs, mask, want) == xs
    ensures (forall i :: 0 <= i < |mask| ==> mask[i] != want) ==> Select(xs, mask, want) == []
  {
    if xs != [] {
      SelectUniform(xs[..|xs| - 1], mask[..|mask| - 1], want);
    }
  }

  /** Every selected element comes from a position whose mask entry is `want`. */
  lemma {:induction false} SelectMember<T>(xs: seq<T>, mask: seq<bool>, want: bool, j: nat)
    requires |xs| == |mask| && j < |Select(xs, mask, want)|
    ensures exists i :: 0 <= i < |xs| && mask[i] == want && xs[i] == Select(xs, mask, want)[j]
  {
    var n := |xs| - 1;
    var init := Select(xs[..n], mask[..n], want);
    if j < |init| {
      SelectMember(xs[..n], mask[..n], want, j);
      var i :| 0 <= i < n && mask[..n][i] == want && xs[..n][i] == init[j];
      assert mask[i] == want && xs[i] == Select(xs, mask, want)[j];
    } else {
      assert mask[n] == want && xs[n] == Select(xs, mask, want)[j];
    }
  }

  /** Element `i` taken from `a` where the mask is set and from `b` where it is not. */
  function Choose<T>(mask: seq<bool>, a: seq<T>, b: seq<T>): (r: seq<T>)
    requires |a| == |mask| && |b| == |mask|
  {
    seq(|mask|, i requires 0 <= i < |mask| => if mask[i] then a[i] else b[i])
  }

  /** An entry marked `want` has fewer `want` entries before it than the whole mask has. */
  lemma CountBelow(mask: seq<bool>, want: bool, j: nat)
    requires j < |mask| && mask[j] == want
    ensures Count(mask[..j], want) < Count(mask, want)
  {
    CountSnoc(mask, want, j);
    CountPrefix(mask, want, j + 1);
  }

  /** Entry `j` of the sequence rebuilt in mask order: the next unused hit where the mask is set, the
      next unused miss where it is not. */
  function MergedAt<T>(mask: seq<bool>, hits: seq<T>, misses: seq<T>, j: nat): T
    requires j < |mask| && |hits| == Count(mask, true) && |misses| == Count(mask, false)
  {
    CountBelow(mask, mask[j], j);
    if mask[j] then hits[Count(mask[..j], true)] else misses[Count(mask[..j], false)]
  }

  /** `hits` and `misses` put back together in mask order. */
  function Merge<T>(mask: seq<bool>, hits: seq<T>, misses: seq<T>): seq<T>
    requires |hits| == Count(mask, true) && |misses| == Count(mask, false)
  {
    seq(|mask|, j requires 0 <= j < |mask| => MergedAt(mask, hits, misses, j))
  }

  /** Entry `j` of the merge, together with the counts one entry further on. */
  lemma MergeStep<T>(mask: seq<bool>, hits: seq<T>, misses: seq<T>, j: nat)
    requires j < |mask| && |hits| == Count(mask, true) && |misses| == Count(mask, false)
    ensures Count(mask[..j + 1], true) == Count(mask[..j], true) + (if mask[j] then 1 else 0)
    ensures Count(mask[..j + 1], false) == Count(mask[..j], false) + (if mask[j] then 0 else 1)
    ensures mask[j] ==> Count(mask[..j], true) < |hits| && Merge(mask, hits, misses)[j] == hits[Count(mask[..j], true)]
    ensures !mask[j] ==> Count(mask[..j], false) < |misses| && Merge(mask, hits, misses)[j] == misses[Count(mask[..j], false)]
  {
    CountSnoc(mask, true, j);
    CountSnoc(mask, false, j);
    CountBelow(mask, mask[j], j);
  }

  /** Merging puts back what selecting took apart: the hits selected from `a` and the misses selected
      from `b` land at the positions they were selected from. */
  lemma MergeSelect<T>(mask: seq<bool>, a: seq<T>, b: seq<T>)
    requires |a| == |mask| && |b| == |mask|
    ensures Merge(mask, Select(a, mask, true), Select(b, mask, false)) == Choose(mask, a, b)
  {
    forall j | 0 <= j < |mask|
      ensures MergedAt(mask, Select(a, mask, true), Select(b, mask, false), j) == Choose(mask, a, b)[j]
    {
      SelectAt(a, mask, mask[j], j);
      SelectAt(b, mask, mask[j], j);
    }
  }

  /** One step of cutting: the piece that starts at `i`, then the pieces of the rest. */
  lemma SlicesStep<T>(xs: seq<T>, n: nat, i: nat)
    requires n > 0 && i < |xs|
    ensures var hi := if i + n < |xs| then i + n else |xs|;
      Slices(xs[i..], n) == [xs[i..hi]] + Slices(xs[hi..], n)
  {
    var hi := if i + n < |xs| then i + n else |xs|;
    if i + n < |xs| {
      assert xs[i..][..n] == xs[i..hi];
      assert xs[i..][n..] == xs[hi..];
    } else {
      assert xs[hi..] == [];
      assert xs[i..] == xs[i..hi];
    }
  }
}
