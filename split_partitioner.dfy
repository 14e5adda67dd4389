/** `get_train_valid_test_split_` (tokensmith/megatron_dependencies.py:235-261):
    a ratio string such as "969,30,1" and a document count become four
    cumulative boundaries of the train, validation and test ranges.
    Python's `float` is the parameter `toFloat` (None where it raises), and
    float arithmetic is exact real arithmetic. */
module SplitPartitioner {
  import opened Common

  // ---------------------------------------------------------------------------
  // `str.split` on a one-character separator

  /** The index of the first `c` in `s`. */
  function FirstIndex(s: string, c: char): (i: nat)
    requires c in s
    ensures i < |s| && s[i] == c && c !in s[..i]
  {
    if s[0] == c then 0 else 1 + FirstIndex(s[1..], c)
  }

  /** `s.split(sep)`: the pieces between separators, empty pieces kept. */
  function SplitOn(s: string, sep: char): (parts: seq<string>)
    ensures |parts| >= 1
    ensures forall k :: 0 <= k < |parts| ==> sep !in parts[k]
    decreases |s|
  {
    if sep !in s then [s]
    else
      var i := FirstIndex(s, sep);
      [s[..i]] + SplitOn(s[i + 1..], sep)
  }

  /** `sep.join(parts)`. */
  function Join(parts: seq<string>, sep: char): string
    requires |parts| >= 1
  {
    if |parts| == 1 then parts[0] else parts[0] + [sep] + Join(parts[1..], sep)
  }

  /** Joining the pieces gives back the string. */
  lemma {:induction false} JoinSplitOn(s: string, sep: char)
    ensures Join(SplitOn(s, sep), sep) == s
    decreases |s|
  {
    if sep in s {
      var i := FirstIndex(s, sep);
      JoinSplitOn(s[i + 1..], sep);
      assert SplitOn(s, sep)[1..] == SplitOn(s[i + 1..], sep);
      assert s == s[..i] + [sep] + s[i + 1..];
    }
  }

  /** The first `c` is at `i` when `s[i]` is `c` and none comes before it. */
  lemma FirstIndexAt(s: string, c: char, i: nat)
    requires i < |s| && s[i] == c && c !in s[..i]
    ensures FirstIndex(s, c) == i
  {
    var j := FirstIndex(s, c);
    assert j >= i by {
      assert forall k :: 0 <= k < i ==> s[..i][k] == s[k];
    }
    assert j <= i by {
      assert forall k :: 0 <= k < j ==> s[..j][k] == s[k];
    }
  }

  /** Splitting a join of separator-free pieces gives back the pieces. */
  lemma {:induction false} SplitOnJoin(parts: seq<string>, sep: char)
    requires |parts| >= 1
    requires forall k :: 0 <= k < |parts| ==> sep !in parts[k]
    ensures SplitOn(Join(parts, sep), sep) == parts
    decreases |parts|
  {
    if |parts| > 1 {
      var p, tail := parts[0], parts[1..];
      var rest := Join(tail, sep);
      var s := Join(parts, sep);
      assert s == p + [sep] + rest;
      assert s[..|p|] == p && s[|p|] == sep;
      FirstIndexAt(s, sep, |p|);
      assert s[|p| + 1..] == rest;
      assert SplitOn(s, sep) == [p] + SplitOn(rest, sep);
      assert forall k :: 0 <= k < |tail| ==> tail[k] == parts[k + 1];
      SplitOnJoin(tail, sep);
    }
  }

  /** Lines 241-246: split on `,` if present, else on `/`, else one field. */
  function Fields(s: string): seq<string> {
    if ',' in s then SplitOn(s, ',') else if '/' in s then SplitOn(s, '/') else [s]
  }

  /** `[float(x) for x in fields]`: None when any field does not parse. */
  function ParseAll(fields: seq<string>, toFloat: string -> Option<real>): (r: Option<seq<real>>)
    ensures r.Some? <==> forall k :: 0 <= k < |fields| ==> toFloat(fields[k]).Some?
    ensures r.Some? ==> |r.value| == |fields| && forall k :: 0 <= k < |fields| ==> r.value[k] == toFloat(fields[k]).value
  {
    if |fields| == 0 then Some([])
    else
      var init := ParseAll(fields[..|fields| - 1], toFloat);
      var last := toFloat(fields[|fields| - 1]);
      if init.None? || last.None? then None else Some(init.value + [last.value])
  }

  // ---------------------------------------------------------------------------
  // Rounding and sums

  /** Python's `round` on an exact value: to the nearest integer, ties to even. */
  function Round(x: real): (r: int)
    ensures x - 0.5 <= r as real <= x + 0.5
  {
    var f := x.Floor;
    var d := x - f as real;
    if d < 0.5 then f else if d > 0.5 then f + 1 else if f % 2 == 0 then f else f + 1
  }

  /** Rounding never reverses order. */
  lemma RoundMonotone(x: real, y: real)
    requires x <= y
    ensures Round(x) <= Round(y)
  {
    var fx, fy := x.Floor, y.Floor;
    if fx < fy {
      assert Round(x) <= fx + 1 <= fy <= Round(y);
    }
  }

  /** Whole numbers round to themselves. */
  lemma RoundWhole(n: int)
    ensures Round(n as real) == n
  {
    assert (n as real).Floor == n;
  }

  function Sum(xs: seq<real>): real {
    if |xs| == 0 then 0.0 else Sum(xs[..|xs| - 1]) + xs[|xs| - 1]
  }

  /** Lines 247-249: pad with zeros to three ratios and drop the rest. */
  function Padded(xs: seq<real>): (w: seq<real>)
    ensures |w| == 3
    ensures forall k :: 0 <= k < 3 ==> w[k] == if k < |xs| then xs[k] else 0.0
  {
    (xs + [0.0, 0.0, 0.0])[..3]
  }

  /** Line 255: `int(round(split * float(size)))`. */
  function RoundedShare(w: real, size: int): int {
    Round(Scaled(w, size))
  }

  /** `split * float(size)`. */
  function Scaled(w: real, size: int): real {
    w * size as real
  }

  /** Lines 253-255: `[0]` followed by running sums of the rounded shares. */
  function Cumulative(ws: seq<real>, size: int): (c: seq<int>)
    ensures |c| == |ws| + 1 && c[0] == 0
    ensures forall k :: 0 <= k < |ws| ==> c[k + 1] == c[k] + RoundedShare(ws[k], size)
  {
    if |ws| == 0 then [0]
    else
      var init := ws[..|ws| - 1];
      var c := Cumulative(init, size);
      assert forall k :: 0 <= k < |init| ==> init[k] == ws[k];
      c + [c[|c| - 1] + RoundedShare(ws[|ws| - 1], size)]
  }

  /** Line 252: each ratio divided by their sum. */
  function Shares(w: seq<real>, total: real): (sh: seq<real>)
    requires total != 0.0
    ensures |sh| == |w| && forall k :: 0 <= k < |w| ==> sh[k] == w[k] / total
  {
    seq(|w|, k requires 0 <= k < |w| => w[k] / total)
  }

  lemma DivAdd(a: real, b: real, t: real)
    requires t != 0.0
    ensures (a + b) / t == a / t + b / t
  {
  }

  lemma DivSelf(t: real)
    requires t != 0.0
    ensures t / t == 1.0
  {
  }

  /** The shares add up to the ratio sum over `total`: to one when `total`
      is that sum. */
  lemma {:induction false} SharesSum(w: seq<real>, total: real)
    requires total != 0.0
    ensures Sum(Shares(w, total)) == Sum(w) / total
    ensures total == Sum(w) ==> Sum(Shares(w, total)) == 1.0
    decreases |w|
  {
    if |w| > 0 {
      var i := |w| - 1;
      var sh := Shares(w, total);
      assert sh[..i] == Shares(w[..i], total);
      assert Sum(sh) == Sum(sh[..i]) + sh[i];
      assert Sum(w) == Sum(w[..i]) + w[i];
      SharesSum(w[..i], total);
      DivAdd(Sum(w[..i]), w[i], total);
    }
    DivSelf(total);
  }

  /** Lines 256-258: boundaries 1..3 shifted down by the overshoot of the last. */
  function Shifted(c: seq<int>, size: int): (b: seq<int>)
    requires |c| == 4
  {
    var diff := c[3] - size;
    [c[0], c[1] - diff, c[2] - diff, c[3] - diff]
  }

  /** Lines 247-261 on parsed ratios: pad, normalise, accumulate rounded
      shares, then correct the overshoot. */
  function SplitBoundaries(ratios: seq<real>, size: int): Result<seq<int>> {
    var w := Padded(ratios);
    var total := Sum(w);
    if !(total > 0.0) then Err(AssertionError)
    else Ok(Shifted(Cumulative(Shares(w, total), size), size))
  }

  /** The whole function: ValueError when a field does not parse. */
  function SplitSpec(splitsString: string, size: int, toFloat: string -> Option<real>): Result<seq<int>> {
    match ParseAll(Fields(splitsString), toFloat)
    case None => Err(ValueError)
    case Some(ratios) => SplitBoundaries(ratios, size)
  }

  /** Lines 247-249: append zeros until there are three ratios, keep the first three. */
  method PadRatios(parsed: seq<real>) returns (splits: seq<real>)
    ensures splits == Padded(parsed)
  {
    splits := parsed;
    while |splits| < 3
      invariant |splits| >= |parsed|
      invariant |splits| > |parsed| ==> |splits| <= 3
      invariant splits[..|parsed|] == parsed
      invariant forall k :: |parsed| <= k < |splits| ==> splits[k] == 0.0
      decreases 3 - |splits|
    {
      splits := splits + [0.0];
    }
    splits := splits[..3];
  }

  /** Lines 253-255: the running sums of rounded shares, one append at a time. */
  method CumulativeIndex(shares: seq<real>, size: int) returns (splitsIndex: seq<int>)
    ensures splitsIndex == Cumulative(shares, size)
  {
    ghost var c := Cumulative(shares, size);
    splitsIndex := [0];
    for index := 0 to |shares|
      invariant splitsIndex == c[..index + 1]
    {
      splitsIndex := splitsIndex + [splitsIndex[index] + RoundedShare(shares[index], size)];
      assert c[..index + 2] == c[..index + 1] + [c[index + 1]];
    }
    assert splitsIndex == c;
  }

  /** Lines 256-258: subtract the overshoot from boundaries 1..3 in place. */
  method CorrectOvershoot(c: seq<int>, size: int) returns (splitsIndex: seq<int>)
    requires |c| == 4
    ensures splitsIndex == Shifted(c, size)
  {
    splitsIndex := c;
    var diff := splitsIndex[3] - size;
    for index := 1 to 4
      invariant |splitsIndex| == 4 && splitsIndex[0] == c[0]
      invariant forall k :: 1 <= k < index ==> splitsIndex[k] == c[k] - diff
      invariant forall k :: index <= k < 4 ==> splitsIndex[k] == c[k]
    {
      splitsIndex := splitsIndex[index := splitsIndex[index] - diff];
    }
  }

  /** `get_train_valid_test_split_`, step by step as the source runs it. */
  method GetTrainValidTestSplit(splitsString: string, size: int, toFloat: string -> Option<real>)
    returns (r: Result<seq<int>>)
    ensures r == SplitSpec(splitsString, size, toFloat)
  {
    var parsed := ParseAll(Fields(splitsString), toFloat);
    if parsed.None? {
      return Err(ValueError);
    }
    var splits := PadRatios(parsed.value);
    var splitsSum := Sum(splits);
    if !(splitsSum > 0.0) {
      return Err(AssertionError);
    }
    var shares := Shares(splits, splitsSum);
    var splitsIndex := CumulativeIndex(shares, size);
    splitsIndex := CorrectOvershoot(splitsIndex, size);
    r := Ok(splitsIndex);
  }

  // ---------------------------------------------------------------------------
  // Properties

  /** The result fails exactly when the padded ratios do not sum above zero;
      otherwise it has four boundaries, from 0 to `size`. */
  lemma SplitShape(ratios: seq<real>, size: int)
    ensures SplitBoundaries(ratios, size).Err? <==> !(Sum(Padded(ratios)) > 0.0)
    ensures SplitBoundaries(ratios, size).Err? ==> SplitBoundaries(ratios, size).error == AssertionError
    ensures SplitBoundaries(ratios, size).Ok? ==>
              var b := SplitBoundaries(ratios, size).value;
              |b| == 4 && b[0] == 0 && b[3] == size
  {
  }

  /** Only the first range absorbs the correction: the validation and test
      ranges are exactly their rounded shares, the train range what is left. */
  lemma SplitRangeSizes(ratios: seq<real>, size: int)
    requires SplitBoundaries(ratios, size).Ok?
    ensures var b := SplitBoundaries(ratios, size).value;
            var w := Padded(ratios);
            var t := Sum(w);
            && b[2] - b[1] == RoundedShare(w[1] / t, size)
            && b[3] - b[2] == RoundedShare(w[2] / t, size)
            && b[1] - b[0] == size - RoundedShare(w[1] / t, size) - RoundedShare(w[2] / t, size)
  {
  }

  lemma SumThree(w: seq<real>)
    requires |w| == 3
    ensures Sum(w) == w[0] + w[1] + w[2]
  {
    assert w[..2][..1] == w[..1];
    assert w[..1][..0] == [];
    assert Sum(w[..1]) == w[0];
    assert Sum(w[..2]) == w[0] + w[1];
  }

  lemma SharesSumToOne(x: real, y: real, z: real)
    requires x + y + z > 0.0
    ensures var t := x + y + z; x / t + y / t + z / t == 1.0
  {
    var t := x + y + z;
    assert x / t + y / t + z / t == (x + y + z) / t;
  }

  lemma ScaledSum(a: real, b: real, c: real, size: int)
    requires a + b + c == 1.0
    ensures Scaled(a, size) + Scaled(b, size) + Scaled(c, size) == size as real
  {
    var s := size as real;
    assert a * s + b * s + c * s == (a + b + c) * s;
  }

  lemma RoundsOfThree(x: real, y: real, z: real, size: int)
    requires x + y + z == size as real
    ensures -1 <= Round(x) + Round(y) + Round(z) - size <= 1
  {
    var sum := Round(x) as real + Round(y) as real + Round(z) as real;
    assert (Round(x) + Round(y) + Round(z) - size) as real == sum - size as real;
  }

  /** Three rounded shares of fractions adding up to one miss `size` by at
      most one. */
  lemma RoundingErrorsOfThree(a: real, b: real, c: real, size: int)
    requires a + b + c == 1.0
    ensures -1 <= RoundedShare(a, size) + RoundedShare(b, size) + RoundedShare(c, size) - size <= 1
  {
    ScaledSum(a, b, c, size);
    RoundsOfThree(Scaled(a, size), Scaled(b, size), Scaled(c, size), size);
  }

  /** The overshoot is at most one document either way: each of the three
      rounded shares is within one half of its exact value, and the exact
      shares add up to `size`. */
  lemma OvershootBounded(ratios: seq<real>, size: int)
    requires Sum(Padded(ratios)) > 0.0
    ensures var w := Padded(ratios);
            var t := Sum(w);
            var raw := RoundedShare(w[0] / t, size) + RoundedShare(w[1] / t, size) + RoundedShare(w[2] / t, size);
            -1 <= raw - size <= 1
  {
    var w := Padded(ratios);
    SumThree(w);
    SharesSumToOne(w[0], w[1], w[2]);
    var t := Sum(w);
    RoundingErrorsOfThree(w[0] / t, w[1] / t, w[2] / t, size);
  }

  /** Lines 259-260 hold for every input that reaches them. */
  lemma SourceAssertionsHold(splitsString: string, size: int, toFloat: string -> Option<real>)
    requires SplitSpec(splitsString, size, toFloat).Ok?
    ensures |SplitSpec(splitsString, size, toFloat).value| == 4
    ensures SplitSpec(splitsString, size, toFloat).value[3] == size
  {
  }

  lemma FieldsExample()
    ensures Fields("969,30,1") == ["969", "30", "1"]
  {
    var parts := ["969", "30", "1"];
    assert Join(parts, ',') == "969,30,1" by {
      assert parts[1..][1..] == ["1"];
      assert Join(parts[1..], ',') == "30,1";
    }
    assert ',' !in parts[0] && ',' !in parts[1] && ',' !in parts[2];
    SplitOnJoin(parts, ',');
    assert "969,30,1"[3] == ',';
  }

  lemma BoundariesExample()
    ensures SplitBoundaries([969.0, 30.0, 1.0], 1000) == Ok([0, 969, 999, 1000])
  {
    var w := [969.0, 30.0, 1.0];
    assert Padded(w) == w;
    SumThree(w);
    var shares := Shares(w, 1000.0);
    assert Scaled(shares[0], 1000) == 969.0 && Scaled(shares[1], 1000) == 30.0 && Scaled(shares[2], 1000) == 1.0;
    RoundWhole(969);
    RoundWhole(30);
    RoundWhole(1);
    var c := Cumulative(shares, 1000);
    assert c == [0, 969, 999, 1000];
  }

  /** The split string "969,30,1" over 1000 documents. */
  lemma Example969(toFloat: string -> Option<real>)
    requires toFloat("969") == Some(969.0) && toFloat("30") == Some(30.0) && toFloat("1") == Some(1.0)
    ensures SplitSpec("969,30,1", 1000, toFloat) == Ok([0, 969, 999, 1000])
  {
    FieldsExample();
    var fs := ["969", "30", "1"];
    var parsed := ParseAll(fs, toFloat);
    assert toFloat(fs[0]).Some? && toFloat(fs[1]).Some? && toFloat(fs[2]).Some?;
    assert parsed.value == [969.0, 30.0, 1.0];
    BoundariesExample();
  }

  // ---------------------------------------------------------------------------
  // Finding: a boundary can fall below the first one

  /** As written, ratios "0,1,1" over 3 documents round both halves of 1.5 up
      to 2, overshoot by one, and shift the train boundary to -1, below the
      fixed first boundary 0. */
  lemma SplitBoundaryBelowZero()
    ensures SplitBoundaries([0.0, 1.0, 1.0], 3) == Ok([0, -1, 1, 3])
  {
    var w := [0.0, 1.0, 1.0];
    assert Padded(w) == w;
    SumThree(w);
    var shares := Shares(w, 2.0);
    assert Scaled(shares[0], 3) == 0.0 && Scaled(shares[1], 3) == 1.5 && Scaled(shares[2], 3) == 1.5;
    assert (1.5).Floor == 1;
    assert Round(1.5) == 2;
    RoundWhole(0);
    var c := Cumulative(shares, 3);
    assert c == [0, 0, 2, 4];
  }

  /** Running sums of the padded ratios. */
  function PrefixSums(w: seq<real>): (p: seq<real>)
    ensures |p| == |w| + 1 && p[0] == 0.0
    ensures forall k :: 0 <= k < |w| ==> p[k + 1] == p[k] + w[k]
  {
    if |w| == 0 then [0.0]
    else
      var init := w[..|w| - 1];
      var p := PrefixSums(init);
      assert forall k :: 0 <= k < |init| ==> init[k] == w[k];
      p + [p[|p| - 1] + w[|w| - 1]]
  }

  /** Each value's rounded share of `size`. */
  function RoundedShares(xs: seq<real>, size: int): (r: seq<int>)
    ensures |r| == |xs| && forall k :: 0 <= k < |xs| ==> r[k] == RoundedShare(xs[k], size)
  {
    seq(|xs|, k requires 0 <= k < |xs| => RoundedShare(xs[k], size))
  }

  /** The corrected partition: round the cumulative fraction at each boundary,
      so that rounding errors cannot pile up. */
  function SplitBoundariesRounded(ratios: seq<real>, size: int): Result<seq<int>> {
    var w := Padded(ratios);
    var total := Sum(w);
    if !(total > 0.0) then Err(AssertionError)
    else Ok(RoundedShares(Shares(PrefixSums(w), total), size))
  }

  lemma DivideMonotone(x: real, y: real, t: real)
    requires x <= y && t > 0.0
    ensures x / t <= y / t
  {
  }

  lemma ScaledMonotone(x: real, y: real, size: nat)
    requires x <= y
    ensures Scaled(x, size) <= Scaled(y, size)
  {
  }

  lemma RoundedShareMonotone(x: real, y: real, size: nat)
    requires x <= y
    ensures RoundedShare(x, size) <= RoundedShare(y, size)
  {
    ScaledMonotone(x, y, size);
    RoundMonotone(Scaled(x, size), Scaled(y, size));
  }

  /** The first running sum rounds to 0 and the last, the total, to `size`. */
  lemma ShareEnds(zero: real, t: real, size: int)
    requires zero == 0.0 && t > 0.0
    ensures RoundedShare(zero / t, size) == 0 && RoundedShare(t / t, size) == size
  {
    assert Scaled(zero / t, size) == 0.0;
    RoundWhole(0);
    assert Scaled(t / t, size) == size as real;
    RoundWhole(size);
  }

  /** Padded non-negative ratios have non-decreasing running sums. */
  lemma PrefixSumsOrdered(ratios: seq<real>)
    requires forall k :: 0 <= k < |ratios| ==> ratios[k] >= 0.0
    ensures var p := PrefixSums(Padded(ratios));
            forall k :: 0 <= k < 3 ==> p[k] <= p[k + 1]
  {
  }

  /** Rounded shares of non-decreasing values stay non-decreasing. */
  lemma RoundedSharesOrdered(p: seq<real>, t: real, size: nat)
    requires |p| == 4 && t > 0.0
    requires forall k :: 0 <= k < 3 ==> p[k] <= p[k + 1]
    ensures var b := RoundedShares(Shares(p, t), size);
            forall k :: 0 <= k < 3 ==> b[k] <= b[k + 1]
  {
    var sh := Shares(p, t);
    forall k | 0 <= k < 3
      ensures RoundedShare(sh[k], size) <= RoundedShare(sh[k + 1], size)
    {
      DivideMonotone(p[k], p[k + 1], t);
      RoundedShareMonotone(sh[k], sh[k + 1], size);
    }
  }

  /** With non-negative ratios and size, the corrected boundaries run from 0 to
      `size` without ever decreasing, so the three ranges are disjoint and
      cover [0, size). */
  lemma SplitBoundariesRoundedOrdered(ratios: seq<real>, size: nat)
    requires forall k :: 0 <= k < |ratios| ==> ratios[k] >= 0.0
    requires Sum(Padded(ratios)) > 0.0
    ensures SplitBoundariesRounded(ratios, size).Ok?
    ensures var b := SplitBoundariesRounded(ratios, size).value;
            && |b| == 4 && b[0] == 0 && b[3] == size
            && forall k :: 0 <= k < 3 ==> b[k] <= b[k + 1]
  {
    var w := Padded(ratios);
    var t := Sum(w);
    var p := PrefixSums(w);
    var sh := Shares(p, t);
    SumThree(w);
    ShareEnds(p[0], p[3], size);
    PrefixSumsOrdered(ratios);
    RoundedSharesOrdered(p, t, size);
  }

  /** The corrected partition keeps the as-written answer where it was
      already sound. */
  lemma Example969Rounded()
    ensures SplitBoundariesRounded([969.0, 30.0, 1.0], 1000) == Ok([0, 969, 999, 1000])
  {
    var w := [969.0, 30.0, 1.0];
    assert Padded(w) == w;
    SumThree(w);
    var p := PrefixSums(w);
    assert p == [0.0, 969.0, 999.0, 1000.0];
    var sh := Shares(p, 1000.0);
    assert RoundedShare(sh[0], 1000) == 0 by { assert Scaled(sh[0], 1000) == 0.0; RoundWhole(0); }
    assert RoundedShare(sh[1], 1000) == 969 by { assert Scaled(sh[1], 1000) == 969.0; RoundWhole(969); }
    assert RoundedShare(sh[2], 1000) == 999 by { assert Scaled(sh[2], 1000) == 999.0; RoundWhole(999); }
    assert RoundedShare(sh[3], 1000) == 1000 by { assert Scaled(sh[3], 1000) == 1000.0; RoundWhole(1000); }
    assert RoundedShares(sh, 1000) == [0, 969, 999, 1000];
  }
}
