/** The cache key of the index arrays and the rebuild decision of
    `build_index_mappings` (tokensmith/megatron_dependencies.py:99-117). */
module Fingerprint {

  // ---------------------------------------------------------------------------
  // Decimal rendering, as `"{}".format(n)` does for a non-negative int

  predicate IsDigit(c: char) { '0' <= c <= '9' }

  predicate AllDigits(s: string) {
    forall k :: 0 <= k < |s| ==> IsDigit(s[k])
  }

  function DigitChar(d: nat): (c: char)
    requires d < 10
    ensures IsDigit(c)
  {
    ('0' as int + d) as char
  }

  /** The decimal digits of `n`, most significant first, no leading zero. */
  function DecimalString(n: nat): (r: string)
    ensures |r| >= 1 && AllDigits(r)
    ensures r[0] == '0' ==> n == 0
  {
    if n < 10 then [DigitChar(n)] else DecimalString(n / 10) + [DigitChar(n % 10)]
  }

  /** The value a digit string denotes. */
  function ParseDecimal(s: string): nat
    requires AllDigits(s)
  {
    if |s| == 0 then 0
    else ParseDecimal(s[..|s| - 1]) * 10 + (s[|s| - 1] as int - '0' as int)
  }

  /** Reading back the rendered digits gives the number. */
  lemma {:induction false} ParseDecimalString(n: nat)
    ensures ParseDecimal(DecimalString(n)) == n
  {
    if n >= 10 {
      ParseDecimalString(n / 10);
      var r := DecimalString(n);
      assert r[..|r| - 1] == DecimalString(n / 10);
    }
  }

  /** Distinct numbers render differently. */
  lemma DecimalStringInjective(a: nat, b: nat)
    requires DecimalString(a) == DecimalString(b)
    ensures a == b
  {
    ParseDecimalString(a);
    ParseDecimalString(b);
  }

  /** A run of digits followed by a non-digit is determined by the string. */
  lemma DigitRunSplit(a: string, x: string, b: string, y: string)
    requires AllDigits(a) && AllDigits(b)
    requires |x| > 0 && |y| > 0 && !IsDigit(x[0]) && !IsDigit(y[0])
    requires a + x == b + y
    ensures a == b && x == y
  {
    var m := if |a| <= |b| then |a| else |b|;
    assert (a + x)[m] == (b + y)[m];
    assert IsDigit((a + x)[m]) <==> m < |a|;
    assert IsDigit((b + y)[m]) <==> m < |b|;
    assert a == (a + x)[..|a|];
    assert b == (b + y)[..|b|];
    assert x == (a + x)[|a|..];
    assert y == (b + y)[|b|..];
  }

  // ---------------------------------------------------------------------------
  // The fingerprint and the three cache files

  /** `_filename` as built at lines 100-107. */
  function Filename(dataPrefix: string, name: string, numSamples: nat, seqLength: nat,
                       seed: nat, packingImpl: string, allowChopped: bool): string
  {
    dataPrefix
    + "_" + name + "_indexmap"
    + "_" + DecimalString(numSamples) + "ns"
    + "_" + DecimalString(seqLength) + "sl"
    + "_" + DecimalString(seed) + "s"
    + "_" + packingImpl + "pi"
    + (if allowChopped then "_ac" else "")
  }

  datatype IndexFiles = IndexFiles(docIdx: string, sampleIdx: string, shuffleIdx: string)

  /** The three `.npy` paths the arrays are cached under. */
  function IndexFileNames(fingerprint: string): (f: IndexFiles)
    ensures |f.docIdx| > |fingerprint| && f.docIdx[..|fingerprint|] == fingerprint
    ensures |f.sampleIdx| > |fingerprint| && f.sampleIdx[..|fingerprint|] == fingerprint
    ensures |f.shuffleIdx| > |fingerprint| && f.shuffleIdx[..|fingerprint|] == fingerprint
    ensures f.docIdx != f.sampleIdx && f.sampleIdx != f.shuffleIdx && f.docIdx != f.shuffleIdx
  {
    var f := IndexFiles(fingerprint + "_doc_idx.npy", fingerprint + "_sample_idx.npy",
                        fingerprint + "_shuffle_idx.npy");
    assert f.docIdx[|fingerprint| + 1] == 'd';
    assert f.sampleIdx[|fingerprint| + 1] == 's' && f.sampleIdx[|fingerprint| + 2] == 'a';
    assert f.shuffleIdx[|fingerprint| + 1] == 's' && f.shuffleIdx[|fingerprint| + 2] == 'h';
    f
  }

  /** Lines 113-117: the arrays are rebuilt unless all three files exist. */
  predicate NeedsBuild(isFile: string -> bool, files: IndexFiles) {
    !isFile(files.docIdx) || !isFile(files.sampleIdx) || !isFile(files.shuffleIdx)
  }

  /** The key ends in `_ac` exactly when chopped samples are allowed. */
  lemma ChopFlagSuffix(dataPrefix: string, name: string, numSamples: nat, seqLength: nat,
                       seed: nat, packingImpl: string, allowChopped: bool)
    ensures var fp := Filename(dataPrefix, name, numSamples, seqLength, seed, packingImpl, allowChopped);
            (|fp| >= 3 && fp[|fp| - 3..] == "_ac") <==> allowChopped
  {
    var fp := Filename(dataPrefix, name, numSamples, seqLength, seed, packingImpl, allowChopped);
    if !allowChopped {
      assert fp[|fp| - 1] == 'i';
    }
  }

  /** The part of the key after the prefix and the dataset name. */
  function Tail(numSamples: nat, seqLength: nat, seed: nat, packingImpl: string, allowChopped: bool): string {
    DecimalString(numSamples) + ("ns_" + (DecimalString(seqLength) + ("sl_" + (DecimalString(seed)
      + ("s_" + (packingImpl + ("pi" + (if allowChopped then "_ac" else ""))))))))
  }

  lemma FingerprintSplits(dataPrefix: string, name: string, numSamples: nat, seqLength: nat,
                          seed: nat, packingImpl: string, allowChopped: bool)
    ensures Filename(dataPrefix, name, numSamples, seqLength, seed, packingImpl, allowChopped)
         == (dataPrefix + "_" + name + "_indexmap_") + Tail(numSamples, seqLength, seed, packingImpl, allowChopped)
  {
  }

  lemma TailInjective(ns: nat, sl: nat, seed: nat, pi: string, ac: bool,
                      ns': nat, sl': nat, seed': nat, pi': string, ac': bool)
    requires Tail(ns, sl, seed, pi, ac) == Tail(ns', sl', seed', pi', ac')
    ensures ns == ns' && sl == sl' && seed == seed' && pi == pi' && ac == ac'
  {
    var acs, acs' := (if ac then "_ac" else ""), (if ac' then "_ac" else "");
    var r1 := "ns_" + (DecimalString(sl) + ("sl_" + (DecimalString(seed) + ("s_" + (pi + ("pi" + acs))))));
    var r1' := "ns_" + (DecimalString(sl') + ("sl_" + (DecimalString(seed') + ("s_" + (pi' + ("pi" + acs'))))));
    DigitRunSplit(DecimalString(ns), r1, DecimalString(ns'), r1');
    DecimalStringInjective(ns, ns');
    var r2 := "sl_" + (DecimalString(seed) + ("s_" + (pi + ("pi" + acs))));
    var r2' := "sl_" + (DecimalString(seed') + ("s_" + (pi' + ("pi" + acs'))));
    assert DecimalString(sl) + r2 == r1[3..] && DecimalString(sl') + r2' == r1'[3..];
    DigitRunSplit(DecimalString(sl), r2, DecimalString(sl'), r2');
    DecimalStringInjective(sl, sl');
    var r3 := "s_" + (pi + ("pi" + acs));
    var r3' := "s_" + (pi' + ("pi" + acs'));
    assert DecimalString(seed) + r3 == r2[3..] && DecimalString(seed') + r3' == r2'[3..];
    DigitRunSplit(DecimalString(seed), r3, DecimalString(seed'), r3');
    DecimalStringInjective(seed, seed');
    var r4, r4' := pi + ("pi" + acs), pi' + ("pi" + acs');
    assert r4 == r3[2..] && r4' == r3'[2..];
    assert r4[|r4| - 1] == (if ac then 'c' else 'i');
    assert r4'[|r4'| - 1] == (if ac' then 'c' else 'i');
    assert pi == r4[..|pi|] && pi' == r4'[..|pi'|];
  }

  /** Same prefix and dataset name: two configurations share cache files only
      if they agree on sample count, sequence length, seed, packing
      implementation and chop flag, so any change forces a rebuild. */
  lemma FingerprintInjective(dataPrefix: string, name: string,
                             ns: nat, sl: nat, seed: nat, pi: string, ac: bool,
                             ns': nat, sl': nat, seed': nat, pi': string, ac': bool)
    requires Filename(dataPrefix, name, ns, sl, seed, pi, ac) == Filename(dataPrefix, name, ns', sl', seed', pi', ac')
    ensures ns == ns' && sl == sl' && seed == seed' && pi == pi' && ac == ac'
  {
    var head := dataPrefix + "_" + name + "_indexmap_";
    FingerprintSplits(dataPrefix, name, ns, sl, seed, pi, ac);
    FingerprintSplits(dataPrefix, name, ns', sl', seed', pi', ac');
    var t, t' := Tail(ns, sl, seed, pi, ac), Tail(ns', sl', seed', pi', ac');
    assert t == (head + t)[|head|..] && t' == (head + t')[|head|..];
    TailInjective(ns, sl, seed, pi, ac, ns', sl', seed', pi', ac');
  }
}
