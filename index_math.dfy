/** Integer logic behind the index arrays: token counts, the epoch search, the
    stacked per-epoch document lists, and permutations of [0, n).
    Source: tokensmith/megatron_dependencies.py. */
module IndexMath {

  // ---------------------------------------------------------------------------
  // Token counts (`_num_tokens`)

  /** Every id in `ds` indexes the size table. */
  predicate InTable(ds: seq<nat>, sizes: seq<nat>) {
    forall k :: 0 <= k < |ds| ==> ds[k] < |sizes|
  }

  /** `np.sum(sizes[documents])`: the tokens of the listed documents, repeats
      counted each time. */
  function NumTokens(ds: seq<nat>, sizes: seq<nat>): (t: nat)
    requires InTable(ds, sizes)
    ensures forall k :: 0 <= k < |ds| ==> sizes[ds[k]] <= t
    ensures |ds| == 0 ==> t == 0
  {
    if |ds| == 0 then 0 else NumTokens(ds[..|ds| - 1], sizes) + sizes[ds[|ds| - 1]]
  }

  /** Token counts add up over concatenated document lists. */
  lemma {:induction false} NumTokensAppend(a: seq<nat>, b: seq<nat>, sizes: seq<nat>)
    requires InTable(a, sizes) && InTable(b, sizes)
    ensures InTable(a + b, sizes)
    ensures NumTokens(a + b, sizes) == NumTokens(a, sizes) + NumTokens(b, sizes)
    decreases |b|
  {
    if |b| == 0 {
      assert a + b == a;
    } else {
      var b' := b[..|b| - 1];
      NumTokensAppend(a, b', sizes);
      assert (a + b)[..|a + b| - 1] == a + b';
    }
  }

  // ---------------------------------------------------------------------------
  // Epoch count (`_num_epochs`)

  /** `x // d` on numpy integer scalars (`tokens_per_epoch` is the numpy sum of
      line 19): a zero divisor gives 0 with a warning, not an error. For a
      positive divisor Dafny's `/` is Python's floor division. */
  function NpFloorDiv(x: int, d: nat): int {
    if d == 0 then 0 else x / d
  }

  /** Line 35: `k` epochs of `tokensPerEpoch` tokens give at least `numSamples`
      samples of `seqLength + 1` tokens that overlap by one. */
  predicate EnoughEpochs(k: nat, tokensPerEpoch: nat, seqLength: nat, numSamples: nat) {
    NpFloorDiv(k * tokensPerEpoch - 1, seqLength) >= numSamples
  }

  lemma MulDistrib(d: int, a: int, b: int)
    ensures d * a - d * b == d * (a - b)
  {
  }

  lemma MulNonnegative(d: nat, k: nat)
    ensures d * k >= 0
  {
  }

  lemma DivBelow(x: int, d: int, n: int)
    requires d > 0 && x / d < n
    ensures x < n * d
  {
    var q := x / d;
    assert x - d * q < d;
    MulNonnegative(d, n - 1 - q);
    MulDistrib(d, n - 1, q);
    MulDistrib(d, n, 1);
    assert n * d == d * n;
  }

  /** `_num_epochs`: the least positive number of epochs that yields enough
      samples. With a zero sequence length the test reads 0 >= num_samples, so
      one epoch is enough for no samples and none is ever enough otherwise. */
  method NumEpochs(tokensPerEpoch: nat, seqLength: nat, numSamples: nat) returns (numEpochs: nat)
    requires seqLength > 0 ==> tokensPerEpoch > 0
    requires seqLength == 0 ==> numSamples == 0
    ensures numEpochs >= 1
    ensures seqLength == 0 ==> numEpochs == 1
    ensures EnoughEpochs(numEpochs, tokensPerEpoch, seqLength, numSamples)
    ensures forall k :: 1 <= k < numEpochs ==> !EnoughEpochs(k, tokensPerEpoch, seqLength, numSamples)
  {
    numEpochs := 0;
    var totalTokens := 0;
    while true
      invariant totalTokens == numEpochs * tokensPerEpoch
      invariant totalTokens <= numSamples * seqLength
      invariant seqLength == 0 ==> numEpochs == 0
      invariant forall k :: 1 <= k <= numEpochs ==> !EnoughEpochs(k, tokensPerEpoch, seqLength, numSamples)
      decreases numSamples * seqLength - totalTokens
    {
      numEpochs := numEpochs + 1;
      totalTokens := totalTokens + tokensPerEpoch;
      if NpFloorDiv(totalTokens - 1, seqLength) >= numSamples {
        return;
      }
      DivBelow(totalTokens - 1, seqLength, numSamples);
    }
  }

  /** More epochs never give fewer samples, so the result of NumEpochs splits
      the epoch counts into "too few" below it and "enough" from it on. */
  lemma EnoughEpochsMonotone(j: nat, k: nat, tokensPerEpoch: nat, seqLength: nat, numSamples: nat)
    requires seqLength > 0 && j <= k
    requires EnoughEpochs(j, tokensPerEpoch, seqLength, numSamples)
    ensures EnoughEpochs(k, tokensPerEpoch, seqLength, numSamples)
  {
    assert j * tokensPerEpoch <= k * tokensPerEpoch by {
      assert (k - j) * tokensPerEpoch >= 0;
    }
    DivMonotone(j * tokensPerEpoch - 1, k * tokensPerEpoch - 1, seqLength);
  }

  lemma DivMonotone(x: int, y: int, d: int)
    requires d > 0 && x <= y
    ensures x / d <= y / d
  {
    var qx, qy := x / d, y / d;
    assert d * qx <= x by { assert x == d * qx + x % d; }
    assert y < d * (qy + 1) by { assert y == d * qy + y % d; }
    assert d * qx < d * (qy + 1);
  }

  /** With a zero sequence length no epoch count gives a sample: `_num_epochs`
      loops for ever when samples are asked for. */
  lemma ZeroLengthNeverEnough(k: nat, tokensPerEpoch: nat, numSamples: nat)
    requires numSamples > 0
    ensures !EnoughEpochs(k, tokensPerEpoch, 0, numSamples)
  {
  }

  /** With no tokens per epoch no epoch count is ever enough: `_num_epochs`
      loops for ever on an empty corpus. */
  lemma ZeroTokensNeverEnough(k: nat, seqLength: nat, numSamples: nat)
    requires seqLength > 0
    ensures !EnoughEpochs(k, 0, seqLength, numSamples)
  {
    assert k * 0 - 1 == -1;
    assert -1 / seqLength == -1 by {
      assert -1 == seqLength * (-1) + (seqLength - 1);
    }
  }

  // ---------------------------------------------------------------------------
  // Stacked epochs (`_build_doc_idx`)

  /** `k` copies of `s`, one after the other. */
  function Stack<T>(s: seq<T>, k: nat): (r: seq<T>)
    ensures |r| == k * |s|
  {
    if k == 0 then [] else Stack(s, k - 1) + s
  }

  /** Each element occurs in the stack once per epoch. */
  lemma {:induction false} StackCount<T>(s: seq<T>, k: nat, x: T)
    ensures multiset(Stack(s, k))[x] == k * multiset(s)[x]
  {
    if k > 0 {
      StackCount(s, k - 1, x);
      var prev := Stack(s, k - 1);
      assert Stack(s, k) == prev + s;
      assert multiset(prev + s) == multiset(prev) + multiset(s);
      var c := multiset(s)[x];
      assert multiset(Stack(s, k))[x] == (k - 1) * c + c;
    }
  }

  lemma MulSucc(k: nat, t: int)
    ensures k * t + t == (k + 1) * t
  {
  }

  /** The stack holds `k` times the tokens of one epoch. */
  lemma {:induction false} StackTokens(ds: seq<nat>, k: nat, sizes: seq<nat>)
    requires InTable(ds, sizes)
    ensures InTable(Stack(ds, k), sizes)
    ensures NumTokens(Stack(ds, k), sizes) == k * NumTokens(ds, sizes)
  {
    if k > 0 {
      var prev := Stack(ds, k - 1);
      StackTokens(ds, k - 1, sizes);
      NumTokensAppend(prev, ds, sizes);
      var t := NumTokens(ds, sizes);
      assert NumTokens(Stack(ds, k), sizes) == NumTokens(prev, sizes) + t;
      MulSucc(k - 1, t);
    }
  }

  /** `astype(np.int32)`: the two's-complement truncation to 32 bits. */
  function Int32(x: int): (r: int)
    ensures -0x8000_0000 <= r < 0x8000_0000
    ensures (r - x) % 0x1_0000_0000 == 0
  {
    (x + 0x8000_0000) % 0x1_0000_0000 - 0x8000_0000
  }

  /** The cast leaves ids that already fit in 32 bits alone. */
  lemma Int32Identity(x: int)
    requires -0x8000_0000 <= x < 0x8000_0000
    ensures Int32(x) == x
  {
  }

  function CastInt32(s: seq<nat>): (r: seq<int>)
    ensures |r| == |s|
    ensures forall k :: 0 <= k < |s| ==> r[k] == Int32(s[k])
  {
    if |s| == 0 then [] else CastInt32(s[..|s| - 1]) + [Int32(s[|s| - 1])]
  }

  /** Ids that fit in 32 bits come through the cast unchanged. */
  lemma CastInt32Identity(s: seq<nat>)
    requires forall k :: 0 <= k < |s| ==> s[k] < 0x8000_0000
    ensures CastInt32(s) == s
  {
    forall k | 0 <= k < |s|
      ensures CastInt32(s)[k] == s[k]
    {
      Int32Identity(s[k]);
    }
  }

  // ---------------------------------------------------------------------------
  // Permutations of [0, n) (`_build_shuffle_idx`, `np.arange` + shuffle)

  /** `np.arange(n)`. */
  function Range(n: nat): (r: seq<nat>)
    ensures |r| == n
    ensures forall k :: 0 <= k < n ==> r[k] == k
  {
    if n == 0 then [] else Range(n - 1) + [n - 1]
  }

  /** `s` is a permutation of [0, n), stated as multiset equality with `np.arange(n)`. */
  predicate IsPermutationOfRange(s: seq<nat>, n: nat) {
    multiset(s) == multiset(Range(n))
  }

  lemma {:induction false} RangeCount(n: nat, x: nat)
    ensures multiset(Range(n))[x] == if x < n then 1 else 0
  {
    if n > 0 {
      var prev := Range(n - 1);
      var last: nat := n - 1;
      RangeCount(n - 1, x);
      assert Range(n) == prev + [last];
      assert multiset(prev + [last]) == multiset(prev) + multiset{last};
      assert multiset{last}[x] == if x == last then 1 else 0;
    }
  }

  lemma TwiceCounted<T>(s: seq<T>, i: nat, j: nat)
    requires i < j < |s| && s[i] == s[j]
    ensures multiset(s)[s[i]] >= 2
  {
    var x := s[i];
    assert s == s[..i] + [x] + s[i + 1..j] + [x] + s[j + 1..];
    assert multiset(s) == multiset(s[..i]) + multiset{x} + multiset(s[i + 1..j]) + multiset{x} + multiset(s[j + 1..]);
  }

  /** A permutation of [0, n) has n entries, each below n, no two equal: every
      slot of a sample table is reached exactly once. */
  lemma PermutationOfRangeFacts(s: seq<nat>, n: nat)
    requires IsPermutationOfRange(s, n)
    ensures |s| == n
    ensures forall k :: 0 <= k < |s| ==> s[k] < n
    ensures forall i, j :: 0 <= i < j < |s| ==> s[i] != s[j]
  {
    calc {
      |s|;
      |multiset(s)|;
      |multiset(Range(n))|;
      n;
    }
    forall k | 0 <= k < |s|
      ensures s[k] < n
    {
      assert s[k] in multiset(s);
      RangeCount(n, s[k]);
    }
    forall i, j | 0 <= i < j < |s|
      ensures s[i] != s[j]
    {
      if s[i] == s[j] {
        TwiceCounted(s, i, j);
        RangeCount(n, s[i]);
      }
    }
  }
}
