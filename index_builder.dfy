/** The three index arrays of a training run: doc-idx, sample-idx and
    shuffle-idx, built by `build_index_mappings` under one of three packing
    implementations (tokensmith/megatron_dependencies.py:38-233). */
module IndexBuilder {
  import opened Common
  import opened IndexMath
  import opened Fingerprint
  import Rng

  /** The label value of a token that does not count towards the loss. */
  const IGNORE_INDEX: int := -100

  const INT32_MAX: int := 0x7FFF_FFFF
  const UINT32_MAX: int := 0xFFFF_FFFF

  /** `np.all(labels[:limit] == -100)`; true of an empty slice, as in numpy. */
  predicate FullyMasked(labels: seq<int>, limit: nat) {
    forall k :: 0 <= k < |labels| && k < limit ==> labels[k] == IGNORE_INDEX
  }

  /** One row of sample-idx: a position in doc-idx and a token offset into that document. */
  datatype SampleBoundary = SampleBoundary(docPos: int, offset: int)

  /** The per-document size table and the optional label dataset
      (`label_dataset.get(i)` is `labels.value(i)`). */
  datatype Corpus = Corpus(sizes: seq<nat>, labels: Option<nat -> seq<int>>)

  /** The settings the two list-building loops read. */
  datatype PackConfig = PackConfig(corpus: Corpus, seqLength: nat, allowChopped: bool)

  /** The lists a loop-built policy saves. Document entries are positions in
      [0, len(documents)), as the loops use them. */
  datatype ListIndex = ListIndex(docIdx: seq<nat>, sampleIdx: seq<SampleBoundary>, shuffleIdx: seq<nat>)

  /** `np.arange(n)`. */
  method Arange(n: nat) returns (a: array<nat>)
    ensures fresh(a) && a[..] == Range(n)
  {
    a := new nat[n];
    var k := 0;
    while k < n
      invariant 0 <= k <= n
      invariant a[..k] == Range(k)
    {
      a[k] := k;
      assert a[..k + 1] == a[..k] + [k];
      k := k + 1;
    }
    assert a[..] == a[..n];
  }

  // ---------------------------------------------------------------------------
  // doc-idx for the "packed" implementation (`_build_doc_idx`)

  /** One more epoch is at least one more copy longer. */
  lemma {:induction false} StackGrows<T>(s: seq<T>, e: nat, k: nat)
    requires e < k
    ensures |Stack(s, e)| + |s| <= |Stack(s, k)|
    decreases k
  {
    if e + 1 < k {
      StackGrows(s, e, k - 1);
    }
  }

  /** One epoch of `_build_doc_idx`: the ids written after the first `pos` slots. */
  method WriteEpoch(a: array<int>, pos: nat, ids: seq<int>)
    requires pos + |ids| <= a.Length
    modifies a
    ensures a[..pos + |ids|] == old(a[..pos]) + ids
  {
    var j := 0;
    while j < |ids|
      invariant 0 <= j <= |ids|
      invariant a[..pos + j] == old(a[..pos]) + ids[..j]
    {
      a[pos + j] := ids[j];
      assert a[..pos + j + 1] == a[..pos + j] + [ids[j]];
      assert ids[..j + 1] == ids[..j] + [ids[j]];
      j := j + 1;
    }
    assert ids[..|ids|] == ids;
  }

  /** `num_epochs` copies of the document ids, cast to int32, shuffled as one array. */
  method BuildDocIdx(documents: seq<nat>, numEpochs: nat, rng: Rng.RandomState) returns (docIdx: array<int>)
    modifies rng
    ensures fresh(docIdx)
    ensures docIdx.Length == numEpochs * |documents|
    ensures multiset(docIdx[..]) == multiset(Stack(CastInt32(documents), numEpochs))
  {
    var ids := CastInt32(documents);
    docIdx := new int[|Stack(ids, numEpochs)|];
    var e, pos := 0, 0;
    while e < numEpochs
      invariant 0 <= e <= numEpochs
      invariant pos == |Stack(ids, e)|
      invariant docIdx[..pos] == Stack(ids, e)
    {
      StackGrows(ids, e, numEpochs);
      WriteEpoch(docIdx, pos, ids);
      e, pos := e + 1, pos + |ids|;
    }
    assert docIdx[..] == docIdx[..pos];
    rng.Shuffle(docIdx);
  }

  lemma {:induction false} DistinctCount(s: seq<int>, x: int)
    requires forall i, j :: 0 <= i < j < |s| ==> s[i] != s[j]
    requires x in s
    ensures multiset(s)[x] == 1
  {
    var last := s[|s| - 1];
    var init := s[..|s| - 1];
    assert s == init + [last];
    if x == last {
      assert x !in init;
    } else {
      DistinctCount(init, x);
    }
  }

  /** With distinct ids that fit in 32 bits, every document occurs exactly
      `numEpochs` times in doc-idx. */
  lemma DocIdxOccurrences(documents: seq<nat>, numEpochs: nat, d: nat)
    requires forall i, j :: 0 <= i < j < |documents| ==> documents[i] != documents[j]
    requires forall i :: 0 <= i < |documents| ==> documents[i] < 0x8000_0000
    requires d in documents
    ensures multiset(Stack(CastInt32(documents), numEpochs))[d] == numEpochs
  {
    var ids := CastInt32(documents);
    CastInt32Identity(documents);
    DistinctCount(ids, d);
    StackCount(ids, numEpochs, d);
  }

  // ---------------------------------------------------------------------------
  // shuffle-idx (`_build_shuffle_idx`)

  datatype IndexDtype = UInt32 | Int64

  /** Lines 56-58: the element type widens to int64 for large tables. */
  function ShuffleDtype(size: int): IndexDtype {
    if size >= UINT32_MAX - 1 then Int64 else UInt32
  }

  function DtypeMax(t: IndexDtype): int {
    match t
    case UInt32 => UINT32_MAX
    case Int64 => 0x7FFF_FFFF_FFFF_FFFF
  }

  /** The chosen element type holds every entry of the table. */
  lemma ShuffleDtypeHoldsEntries(size: int, v: int)
    requires 0 <= v < size <= 0x8000_0000_0000_0000
    ensures v <= DtypeMax(ShuffleDtype(size))
  {
  }

  /** `np.arange(size)` in the chosen type, shuffled; a negative size gives an empty range. */
  method BuildShuffleIdx(size: int, rng: Rng.RandomState) returns (dtype: IndexDtype, shuffleIdx: array<nat>)
    modifies rng
    ensures fresh(shuffleIdx)
    ensures dtype == ShuffleDtype(size)
    ensures IsPermutationOfRange(shuffleIdx[..], if size < 0 then 0 else size)
  {
    dtype := ShuffleDtype(size);
    shuffleIdx := Arange(if size < 0 then 0 else size);
    rng.Shuffle(shuffleIdx);
  }

  // ---------------------------------------------------------------------------
  // pack_until_overflow (lines 163-209)

  /** The loop's variables: `running_length`, `curr_shuffle_idx`, `doc_idx`, `sample_idx`. */
  datatype PackState = PackState(runningLength: nat, cur: nat, docIdx: seq<nat>, sampleIdx: seq<SampleBoundary>)

  /** Lines 175-189: the document is passed over (too long with chopping off,
      or fully masked). With chopping off, a position past the size table is
      not skipped: line 177 reads its size and raises first. With chopping
      allowed, its labels are looked at before line 190 reads the size, so a
      fully masked one is skipped. */
  predicate PackSkips(c: PackConfig, d: nat) {
    || (!c.allowChopped && d < |c.corpus.sizes| && c.corpus.sizes[d] > c.seqLength + 1)
    || (&& (c.allowChopped || d < |c.corpus.sizes|)
        && c.corpus.labels.Some? && FullyMasked(c.corpus.labels.value(d), c.seqLength + 1))
  }

  /** The state after one iteration, and whether the order is to be reshuffled. */
  datatype StepOutcome = StepOutcome(next: PackState, reshuffle: bool)

  /** One iteration of the loop at lines 174-205 with shuffle order `temp`,
      short of the reshuffle itself. The skip branches advance the position
      without the wrap check of lines 203-205. */
  function PackStep(c: PackConfig, temp: seq<nat>, st: PackState): Result<StepOutcome> {
    if st.cur >= |temp| then Err(IndexError)
    else
      var d := temp[st.cur];
      if PackSkips(c, d) then Ok(StepOutcome(st.(cur := st.cur + 1), false))
      else if d >= |c.corpus.sizes| then Err(IndexError)
      else
        var len := c.corpus.sizes[d];
        var withSample := st.(sampleIdx := st.sampleIdx + [SampleBoundary(|st.docIdx|, 0)]);
        var placed :=
          if st.runningLength == 0 then
            withSample.(docIdx := st.docIdx + [d], runningLength := st.runningLength + len)
          else if st.runningLength + len > c.seqLength + 1 then
            withSample.(runningLength := len, docIdx := st.docIdx + [d])
          else
            st.(runningLength := st.runningLength + len, docIdx := st.docIdx + [d]);
        if st.cur + 1 == |temp| then Ok(StepOutcome(placed.(cur := 0), true))
        else Ok(StepOutcome(placed.(cur := st.cur + 1), false))
  }

  /** Every placed document is a position below `n` that the loop does not skip. */
  predicate PlacedOk(c: PackConfig, n: nat, ds: seq<nat>) {
    forall k :: 0 <= k < |ds| ==> ds[k] < n && ds[k] < |c.corpus.sizes| && !PackSkips(c, ds[k])
  }

  /** The first boundary is (0, 0), offsets are 0, and start positions strictly increase. */
  predicate BoundariesOrdered(si: seq<SampleBoundary>) {
    && (|si| > 0 ==> si[0] == SampleBoundary(0, 0))
    && (forall i :: 0 <= i < |si| ==> si[i].offset == 0 && si[i].docPos >= 0)
    && (forall i, j :: 0 <= i < j < |si| ==> si[i].docPos < si[j].docPos)
  }

  /** A sample spanning doc-idx[a..b] that holds two or more documents fits in `seqLength + 1` tokens. */
  predicate SpanOk(c: PackConfig, ds: seq<nat>, a: int, b: int) {
    && 0 <= a <= b <= |ds|
    && InTable(ds[a..b], c.corpus.sizes)
    && (b - a >= 2 ==> NumTokens(ds[a..b], c.corpus.sizes) <= c.seqLength + 1)
  }

  predicate ClosedSpansOk(c: PackConfig, ds: seq<nat>, si: seq<SampleBoundary>) {
    forall i :: 0 <= i < |si| - 1 ==> SpanOk(c, ds, si[i].docPos, si[i + 1].docPos)
  }

  /** What the loop keeps true between iterations. */
  predicate PackInv(c: PackConfig, n: nat, st: PackState) {
    && st.cur <= n
    && PlacedOk(c, n, st.docIdx)
    && BoundariesOrdered(st.sampleIdx)
    && ClosedSpansOk(c, st.docIdx, st.sampleIdx)
    && (|st.sampleIdx| == 0 ==> |st.docIdx| == 0 && st.runningLength == 0)
    && (|st.sampleIdx| > 0 ==>
          var last := st.sampleIdx[|st.sampleIdx| - 1].docPos;
          && last < |st.docIdx|
          && SpanOk(c, st.docIdx, last, |st.docIdx|)
          && st.runningLength == NumTokens(st.docIdx[last..], c.corpus.sizes))
  }

  /** What pack_until_overflow saves (lines 174-206). */
  predicate PackedIndexValid(c: PackConfig, n: nat, numSamples: nat, ds: seq<nat>, si: seq<SampleBoundary>) {
    && |si| == numSamples + 1
    && si[numSamples].docPos == |ds|
    && BoundariesOrdered(si)
    && ClosedSpansOk(c, ds, si)
    && PlacedOk(c, n, ds)
  }

  lemma PlacedOkExtend(c: PackConfig, n: nat, ds: seq<nat>, d: nat)
    requires PlacedOk(c, n, ds) && d < n && d < |c.corpus.sizes| && !PackSkips(c, d)
    ensures PlacedOk(c, n, ds + [d])
  {
  }

  lemma ClosedSpansExtend(c: PackConfig, ds: seq<nat>, si: seq<SampleBoundary>, d: nat)
    requires ClosedSpansOk(c, ds, si)
    ensures ClosedSpansOk(c, ds + [d], si)
  {
    forall i | 0 <= i < |si| - 1
      ensures SpanOk(c, ds + [d], si[i].docPos, si[i + 1].docPos)
    {
      var a, b := si[i].docPos, si[i + 1].docPos;
      assert SpanOk(c, ds, a, b);
      assert (ds + [d])[a..b] == ds[a..b];
    }
  }

  /** The open sample grows by one document. */
  lemma OpenSampleGrows(c: PackConfig, ds: seq<nat>, last: int, d: nat)
    requires 0 <= last <= |ds| && InTable(ds[last..], c.corpus.sizes) && d < |c.corpus.sizes|
    ensures (ds + [d])[last..] == ds[last..] + [d]
    ensures InTable((ds + [d])[last..], c.corpus.sizes)
    ensures NumTokens((ds + [d])[last..], c.corpus.sizes) == NumTokens(ds[last..], c.corpus.sizes) + c.corpus.sizes[d]
  {
    var s := (ds + [d])[last..];
    assert s == ds[last..] + [d];
    assert s[..|s| - 1] == ds[last..];
  }

  /** A sample opened on document `d` holds just that document. */
  lemma FreshSample(c: PackConfig, ds: seq<nat>, d: nat)
    requires d < |c.corpus.sizes|
    ensures (ds + [d])[|ds|..] == [d]
    ensures InTable([d], c.corpus.sizes)
    ensures NumTokens([d], c.corpus.sizes) == c.corpus.sizes[d]
  {
    assert [d][..0] == [];
  }

  /** Closing the open sample at the end of `ds` keeps every closed span valid. */
  lemma CloseSpans(c: PackConfig, ds: seq<nat>, si: seq<SampleBoundary>)
    requires ClosedSpansOk(c, ds, si)
    requires |si| > 0 ==> SpanOk(c, ds, si[|si| - 1].docPos, |ds|)
    ensures ClosedSpansOk(c, ds, si + [SampleBoundary(|ds|, 0)])
  {
    var si' := si + [SampleBoundary(|ds|, 0)];
    forall i | 0 <= i < |si'| - 1
      ensures SpanOk(c, ds, si'[i].docPos, si'[i + 1].docPos)
    {
      if i < |si| - 1 {
        assert si'[i] == si[i] && si'[i + 1] == si[i + 1];
      }
    }
  }

  /** Placing `d` as the first document of a new sample keeps the invariant. */
  lemma OpenSampleKeeps(c: PackConfig, n: nat, st: PackState, d: nat, cur': nat)
    requires PackInv(c, n, st) && cur' <= n
    requires d < n && d < |c.corpus.sizes| && !PackSkips(c, d)
    ensures PackInv(c, n, PackState(c.corpus.sizes[d], cur', st.docIdx + [d], st.sampleIdx + [SampleBoundary(|st.docIdx|, 0)]))
  {
    var ds' := st.docIdx + [d];
    var si' := st.sampleIdx + [SampleBoundary(|st.docIdx|, 0)];
    PlacedOkExtend(c, n, st.docIdx, d);
    FreshSample(c, st.docIdx, d);
    if |st.sampleIdx| > 0 {
      var last := st.sampleIdx[|st.sampleIdx| - 1].docPos;
      assert st.docIdx[last..|st.docIdx|] == st.docIdx[last..];
    }
    CloseSpans(c, st.docIdx, st.sampleIdx);
    ClosedSpansExtend(c, st.docIdx, si', d);
    assert SpanOk(c, ds', |st.docIdx|, |ds'|);
  }

  /** Adding `d` to the open sample, when it still fits, keeps the invariant. */
  lemma ExtendSampleKeeps(c: PackConfig, n: nat, st: PackState, d: nat, cur': nat)
    requires PackInv(c, n, st) && cur' <= n && |st.sampleIdx| > 0
    requires d < n && d < |c.corpus.sizes| && !PackSkips(c, d)
    requires st.runningLength + c.corpus.sizes[d] <= c.seqLength + 1
    ensures PackInv(c, n, PackState(st.runningLength + c.corpus.sizes[d], cur', st.docIdx + [d], st.sampleIdx))
  {
    var ds' := st.docIdx + [d];
    PlacedOkExtend(c, n, st.docIdx, d);
    ClosedSpansExtend(c, st.docIdx, st.sampleIdx, d);
    var last := st.sampleIdx[|st.sampleIdx| - 1].docPos;
    OpenSampleGrows(c, st.docIdx, last, d);
    assert ds'[last..|ds'|] == ds'[last..];
    assert SpanOk(c, ds', last, |ds'|);
  }

  /** Moving along the shuffle order alone keeps the invariant. */
  lemma MoveKeeps(c: PackConfig, n: nat, st: PackState, cur': nat)
    requires PackInv(c, n, st) && cur' <= n
    ensures PackInv(c, n, st.(cur := cur'))
  {
  }

  /** The three ways an iteration can go when the document at the current
      position is skipped or in the size table. */
  lemma PackStepCases(c: PackConfig, temp: seq<nat>, st: PackState)
    requires st.cur < |temp| && (temp[st.cur] < |c.corpus.sizes| || PackSkips(c, temp[st.cur]))
    ensures var d := temp[st.cur];
            var cur' := if st.cur + 1 == |temp| then 0 else st.cur + 1;
            PackStep(c, temp, st).Ok? &&
            PackStep(c, temp, st).value.next ==
              if PackSkips(c, d) then st.(cur := st.cur + 1)
              else
                var len := c.corpus.sizes[d];
                if st.runningLength == 0 || st.runningLength + len > c.seqLength + 1 then
                  PackState(len, cur', st.docIdx + [d], st.sampleIdx + [SampleBoundary(|st.docIdx|, 0)])
                else PackState(st.runningLength + len, cur', st.docIdx + [d], st.sampleIdx)
  {
  }

  /** A skip keeps the invariant. */
  lemma SkipStepKeeps(c: PackConfig, temp: seq<nat>, n: nat, st: PackState)
    requires |temp| == n && PackInv(c, n, st)
    requires st.cur < n && PackSkips(c, temp[st.cur])
    ensures PackStep(c, temp, st) == Ok(StepOutcome(st.(cur := st.cur + 1), false))
    ensures PackInv(c, n, st.(cur := st.cur + 1))
  {
    MoveKeeps(c, n, st, st.cur + 1);
  }

  /** Opening a sample on the current document keeps the invariant. */
  lemma OpenStepKeeps(c: PackConfig, temp: seq<nat>, n: nat, st: PackState)
    requires |temp| == n && PackInv(c, n, st) && st.cur < n
    requires Placeable(c, n, temp[st.cur])
    requires st.runningLength == 0 || st.runningLength + c.corpus.sizes[temp[st.cur]] > c.seqLength + 1
    ensures PackStep(c, temp, st).Ok?
    ensures var nx := PackStep(c, temp, st).value.next;
            PackInv(c, n, nx) && |nx.sampleIdx| == |st.sampleIdx| + 1
  {
    var d := temp[st.cur];
    var cur' := if st.cur + 1 == n then 0 else st.cur + 1;
    PackStepCases(c, temp, st);
    OpenSampleKeeps(c, n, st, d, cur');
  }

  /** Adding the current document to the open sample keeps the invariant. */
  lemma ExtendStepKeeps(c: PackConfig, temp: seq<nat>, n: nat, st: PackState)
    requires |temp| == n && PackInv(c, n, st) && st.cur < n
    requires Placeable(c, n, temp[st.cur])
    requires st.runningLength != 0 && st.runningLength + c.corpus.sizes[temp[st.cur]] <= c.seqLength + 1
    ensures PackStep(c, temp, st).Ok?
    ensures var nx := PackStep(c, temp, st).value.next;
            PackInv(c, n, nx) && nx.sampleIdx == st.sampleIdx
  {
    var d := temp[st.cur];
    var cur' := if st.cur + 1 == n then 0 else st.cur + 1;
    PackStepCases(c, temp, st);
    ExtendSampleKeeps(c, n, st, d, cur');
  }

  /** Each iteration keeps the loop invariant and opens at most one sample. */
  lemma PackStepPreserves(c: PackConfig, temp: seq<nat>, n: nat, st: PackState)
    requires |temp| == n && forall k :: 0 <= k < n ==> temp[k] < n
    requires PackInv(c, n, st)
    requires PackStep(c, temp, st).Ok?
    ensures PackInv(c, n, PackStep(c, temp, st).value.next)
    ensures |PackStep(c, temp, st).value.next.sampleIdx| <= |st.sampleIdx| + 1
  {
    var d := temp[st.cur];
    if PackSkips(c, d) {
      SkipStepKeeps(c, temp, n, st);
    } else if st.runningLength == 0 || st.runningLength + c.corpus.sizes[d] > c.seqLength + 1 {
      OpenStepKeeps(c, temp, n, st);
    } else {
      ExtendStepKeeps(c, temp, n, st);
    }
  }

  /** Closing the last open sample gives the table pack_until_overflow saves. */
  lemma PackFinish(c: PackConfig, n: nat, numSamples: nat, st: PackState)
    requires PackInv(c, n, st) && |st.sampleIdx| == numSamples
    ensures PackedIndexValid(c, n, numSamples, st.docIdx, st.sampleIdx + [SampleBoundary(|st.docIdx|, 0)])
  {
    if |st.sampleIdx| > 0 {
      var last := st.sampleIdx[|st.sampleIdx| - 1].docPos;
      assert st.docIdx[last..|st.docIdx|] == st.docIdx[last..];
    }
    CloseSpans(c, st.docIdx, st.sampleIdx);
  }

  /** The hazard of lines 177-179 and 187-189: skipping the last document of a
      shuffle order leaves the position one past the end, and the next
      iteration indexes past the order (IndexError) instead of wrapping. */
  lemma SkipAtLastPositionOverruns(c: PackConfig, temp: seq<nat>, st: PackState)
    requires |temp| > 0 && st.cur == |temp| - 1
    requires PackSkips(c, temp[st.cur])
    ensures PackStep(c, temp, st) == Ok(StepOutcome(st.(cur := |temp|), false))
    ensures PackStep(c, temp, st.(cur := |temp|)) == Err(IndexError)
  {
  }

  /** Lines 175-190 at a position past the size table: with chopping allowed
      and a label row that is fully masked the loop skips it, and otherwise
      reading its size raises IndexError. */
  lemma PastTableStep(c: PackConfig, temp: seq<nat>, st: PackState)
    requires st.cur < |temp| && temp[st.cur] >= |c.corpus.sizes|
    ensures PackStep(c, temp, st).Ok? <==>
              c.allowChopped && c.corpus.labels.Some? && FullyMasked(c.corpus.labels.value(temp[st.cur]), c.seqLength + 1)
    ensures PackStep(c, temp, st).Ok? ==> PackStep(c, temp, st).value == StepOutcome(st.(cur := st.cur + 1), false)
    ensures PackStep(c, temp, st).Err? ==> PackStep(c, temp, st).error == IndexError
  {
  }

  /** The label rows of the example below: position 1 is fully masked. */
  function MaskedExampleLabels(d: nat): seq<int> {
    if d == 1 then [IGNORE_INDEX] else [5]
  }

  /** Two documents, a size table of one, chopping allowed, position 1 fully
      masked and position 0 not, seq_length 4, order [1, 0]: the loop skips
      position 1, then places position 0 in a new sample and wraps. */
  lemma MaskedPastTableExample()
    ensures var c := PackConfig(Corpus([3], Some(MaskedExampleLabels)), 4, true);
            var s1 := PackStep(c, [1, 0], PackState(0, 0, [], []));
            && s1 == Ok(StepOutcome(PackState(0, 1, [], []), false))
            && PackStep(c, [1, 0], s1.value.next)
               == Ok(StepOutcome(PackState(3, 0, [0], [SampleBoundary(0, 0)]), true))
  {
    var c := PackConfig(Corpus([3], Some(MaskedExampleLabels)), 4, true);
    var temp: seq<nat> := [1, 0];
    assert PackSkips(c, temp[0]);
    assert PackStep(c, temp, PackState(0, 0, [], [])) == Ok(StepOutcome(PackState(0, 1, [], []), false));
    assert !PackSkips(c, temp[1]) by {
      assert MaskedExampleLabels(0)[0] != IGNORE_INDEX;
    }
    assert [] + [SampleBoundary(0, 0)] == [SampleBoundary(0, 0)];
    assert [] + [temp[1]] == [0];
  }

  /** Placing a document never leaves the position past the end: a placement
      at the last position wraps to 0 and asks for a reshuffle. */
  lemma PlacementWraps(c: PackConfig, temp: seq<nat>, st: PackState)
    requires st.cur < |temp| && temp[st.cur] < |c.corpus.sizes| && !PackSkips(c, temp[st.cur])
    ensures PackStep(c, temp, st).Ok?
    ensures var o := PackStep(c, temp, st).value;
            o.next.cur < |temp| && (o.reshuffle <==> st.cur == |temp| - 1)
            && o.next.docIdx == st.docIdx + [temp[st.cur]]
  {
  }

  /** A document position the loop places whenever it meets it. */
  predicate Placeable(c: PackConfig, n: nat, d: nat) {
    d < n && d < |c.corpus.sizes| && !PackSkips(c, d)
  }

  /** Room left in the open sample before it overflows `seqLength + 1` tokens. */
  function Room(c: PackConfig, st: PackState): nat {
    if st.runningLength <= c.seqLength + 1 then c.seqLength + 1 - st.runningLength else 0
  }

  /** The loop's progress, compared lexicographically: samples still to open,
      then room left in the open sample. */
  predicate LexLess(a: int, b: int, a0: int, b0: int) {
    a < a0 || (a == a0 && b < b0)
  }

  predicate LexAtMost(a: int, b: int, a0: int, b0: int) {
    a < a0 || (a == a0 && b <= b0)
  }

  /** A non-empty open sample holds a placeable document with tokens. */
  lemma {:induction false} RunningNeedsPositiveDoc(c: PackConfig, n: nat, st: PackState)
    requires PackInv(c, n, st) && st.runningLength > 0
    ensures exists d: nat :: Placeable(c, n, d) && c.corpus.sizes[d] > 0
  {
    var last := st.sampleIdx[|st.sampleIdx| - 1].docPos;
    PositiveEntry(st.docIdx[last..], c.corpus.sizes);
    var k :| 0 <= k < |st.docIdx[last..]| && c.corpus.sizes[st.docIdx[last..][k]] > 0;
    assert st.docIdx[last..][k] == st.docIdx[last + k];
    assert Placeable(c, n, st.docIdx[last + k]);
  }

  /** Some document of a list with tokens has tokens. */
  lemma {:induction false} PositiveEntry(ds: seq<nat>, sizes: seq<nat>)
    requires InTable(ds, sizes) && NumTokens(ds, sizes) > 0
    ensures exists k :: 0 <= k < |ds| && sizes[ds[k]] > 0
    decreases |ds|
  {
    var i := |ds| - 1;
    if sizes[ds[i]] == 0 {
      assert InTable(ds[..i], sizes);
      PositiveEntry(ds[..i], sizes);
      var k :| 0 <= k < i && sizes[ds[..i][k]] > 0;
      assert ds[..i][k] == ds[k];
    }
  }

  /** No iteration loses progress: opening a sample leaves fewer to open, and
      adding to the open sample never adds room. */
  lemma PackStepMonotone(c: PackConfig, temp: seq<nat>, n: nat, numSamples: nat, st: PackState)
    requires PackInv(c, n, st) && st.cur < |temp| && (temp[st.cur] < |c.corpus.sizes| || PackSkips(c, temp[st.cur]))
    ensures var nx := PackStep(c, temp, st).value.next;
            LexAtMost(numSamples - |nx.sampleIdx|, Room(c, nx), numSamples - |st.sampleIdx|, Room(c, st))
  {
    PackStepCases(c, temp, st);
  }

  /** Placing a document that has tokens whenever the open sample does is
      progress: it opens a sample or fills some room. */
  lemma PackStepKeyProgress(c: PackConfig, temp: seq<nat>, n: nat, numSamples: nat, st: PackState)
    requires PackInv(c, n, st) && st.cur < |temp| && Placeable(c, n, temp[st.cur])
    requires st.runningLength > 0 ==> c.corpus.sizes[temp[st.cur]] > 0
    ensures var nx := PackStep(c, temp, st).value.next;
            LexLess(numSamples - |nx.sampleIdx|, Room(c, nx), numSamples - |st.sampleIdx|, Room(c, st))
  {
    PackStepCases(c, temp, st);
  }

  /** Every position below `n` occurs in a permutation of the range. */
  lemma InPermutation(s: seq<nat>, n: nat, d: nat)
    requires IsPermutationOfRange(s, n) && d < n
    ensures d in s
  {
    RangeCount(n, d);
    assert d in multiset(s);
  }

  /** `key` is a position the loop never skips, one with tokens if any such
      position has them; `hasKey` is false when every position is skipped. */
  ghost predicate KeyChosen(c: PackConfig, n: nat, hasKey: bool, key: nat) {
    && (hasKey ==> Placeable(c, n, key))
    && (!hasKey ==> forall d: nat :: !Placeable(c, n, d))
    && ((exists d: nat :: Placeable(c, n, d) && c.corpus.sizes[d] > 0) ==> hasKey && c.corpus.sizes[key] > 0)
  }

  /** What holds within one pass over the order `temp`, which began with
      progress (rem0, room0): no progress is lost, progress has been made once
      the key position is behind, the position is past the end only after a
      skip at the last position, and it never is when nothing can be skipped. */
  predicate PassInv(c: PackConfig, numSamples: nat, temp: seq<nat>, st: PackState,
                    hasKey: bool, key: nat, rem0: nat, room0: nat)
  {
    && LexAtMost(numSamples - |st.sampleIdx|, Room(c, st), rem0, room0)
    && (hasKey ==> forall p :: 0 <= p < st.cur && p < |temp| && temp[p] == key ==>
          LexLess(numSamples - |st.sampleIdx|, Room(c, st), rem0, room0))
    && (0 < st.cur == |temp| ==> PackSkips(c, temp[|temp| - 1]))
    && (c.allowChopped && c.corpus.labels.None? && 0 < |temp| ==> st.cur < |temp|)
  }

  /** One successful iteration: within the pass it keeps PassInv and moves one
      position on; at the wrap the pass has made progress. */
  lemma PassStep(c: PackConfig, temp: seq<nat>, n: nat, numSamples: nat, st: PackState,
                 hasKey: bool, key: nat, rem0: nat, room0: nat)
    requires IsPermutationOfRange(temp, n)
    requires PackInv(c, n, st) && KeyChosen(c, n, hasKey, key)
    requires PassInv(c, numSamples, temp, st, hasKey, key, rem0, room0)
    requires PackStep(c, temp, st).Ok?
    ensures var o := PackStep(c, temp, st).value;
            if o.reshuffle then
              0 < n && o.next.cur == 0 && LexLess(numSamples - |o.next.sampleIdx|, Room(c, o.next), rem0, room0)
            else
              o.next.cur == st.cur + 1 && PassInv(c, numSamples, temp, o.next, hasKey, key, rem0, room0)
  {
    PermutationOfRangeFacts(temp, n);
    PackStepMonotone(c, temp, n, numSamples, st);
    PackStepCases(c, temp, st);
    var o := PackStep(c, temp, st).value;
    if hasKey && temp[st.cur] == key {
      if st.runningLength > 0 {
        RunningNeedsPositiveDoc(c, n, st);
      }
      PackStepKeyProgress(c, temp, n, numSamples, st);
    }
    if o.reshuffle {
      assert Placeable(c, n, temp[st.cur]);
      InPermutation(temp, n, key);
      var p :| 0 <= p < n && temp[p] == key;
    }
  }

  /** A pass starts at position 0 with the progress made so far. */
  lemma PassStart(c: PackConfig, numSamples: nat, temp: seq<nat>, st: PackState, hasKey: bool, key: nat)
    requires st.cur == 0 < |temp| && |st.sampleIdx| <= numSamples
    ensures PassInv(c, numSamples, temp, st, hasKey, key, numSamples - |st.sampleIdx|, Room(c, st))
  {
  }

  /** A failed iteration raises IndexError, and only because the loop stepped
      past the order, met a position past the size table that it does not
      skip, or has no documents. */
  lemma PassError(c: PackConfig, temp: seq<nat>, n: nat, numSamples: nat, st: PackState,
                  hasKey: bool, key: nat, rem0: nat, room0: nat)
    requires IsPermutationOfRange(temp, n)
    requires PackInv(c, n, st) && PassInv(c, numSamples, temp, st, hasKey, key, rem0, room0)
    requires PackStep(c, temp, st).Err?
    ensures PackStep(c, temp, st).error == IndexError
    ensures n == 0 || n > |c.corpus.sizes| || exists d :: 0 <= d < n && d < |c.corpus.sizes| && PackSkips(c, d)
    ensures !(c.allowChopped && c.corpus.labels.None? && 0 < n <= |c.corpus.sizes|)
  {
    PermutationOfRangeFacts(temp, n);
    if st.cur < n {
      assert temp[st.cur] < n && !PackSkips(c, temp[st.cur]);
    } else if 0 < n {
      assert temp[n - 1] < n && PackSkips(c, temp[n - 1]);
    }
  }

  /** pack_until_overflow: greedily pack whole documents into samples of at
      most `seqLength + 1` tokens, visiting document positions in a shuffled
      order that is reshuffled on each wrap. The loop always ends: within one
      pass over the order it either opens a sample or fills some room in the
      open one, unless it raises IndexError first. That happens when it steps
      past the order after skipping its last position, when it meets a
      position past the size table that it does not skip (with chopping
      allowed, a fully masked one is skipped), or when there are no
      documents. */
  method PackUntilOverflow(c: PackConfig, numDocuments: nat, numSamples: nat, rng: Rng.RandomState)
    returns (r: Result<ListIndex>)
    modifies rng
    ensures r.Ok? ==> PackedIndexValid(c, numDocuments, numSamples, r.value.docIdx, r.value.sampleIdx)
    ensures r.Ok? ==> IsPermutationOfRange(r.value.shuffleIdx, numSamples)
    ensures r.Err? ==> r.error == IndexError && numSamples > 0
                       && (numDocuments == 0 || numDocuments > |c.corpus.sizes|
                           || exists d :: 0 <= d < numDocuments && d < |c.corpus.sizes| && PackSkips(c, d))
    ensures (&& c.allowChopped && c.corpus.labels.None? && numDocuments <= |c.corpus.sizes|
             && (numDocuments > 0 || numSamples == 0)) ==> r.Ok?
  {
    var shuffleArr := Arange(numSamples);
    rng.Shuffle(shuffleArr);
    var shuffleIdx := shuffleArr[..];
    var temp := Arange(numDocuments);
    rng.Shuffle(temp);
    var st := PackState(0, 0, [], []);
    ghost var hasKey := false;
    ghost var key: nat := 0;
    if exists d: nat :: Placeable(c, numDocuments, d) && c.corpus.sizes[d] > 0 {
      key :| Placeable(c, numDocuments, key) && c.corpus.sizes[key] > 0;
      hasKey := true;
    } else if exists d: nat :: Placeable(c, numDocuments, d) {
      key :| Placeable(c, numDocuments, key);
      hasKey := true;
    }
    ghost var rem0: nat := numSamples;
    ghost var room0: nat := Room(c, st);
    while |st.sampleIdx| < numSamples
      invariant PackInv(c, numDocuments, st)
      invariant |st.sampleIdx| <= numSamples
      invariant temp.Length == numDocuments && IsPermutationOfRange(temp[..], numDocuments)
      invariant IsPermutationOfRange(shuffleIdx, numSamples)
      invariant KeyChosen(c, numDocuments, hasKey, key)
      invariant PassInv(c, numSamples, temp[..], st, hasKey, key, rem0, room0)
      decreases rem0, room0, numDocuments - st.cur
    {
      var step := PackStep(c, temp[..], st);
      if step.Err? {
        PassError(c, temp[..], numDocuments, numSamples, st, hasKey, key, rem0, room0);
        return Err(step.error);
      }
      PermutationOfRangeFacts(temp[..], numDocuments);
      PackStepPreserves(c, temp[..], numDocuments, st);
      PassStep(c, temp[..], numDocuments, numSamples, st, hasKey, key, rem0, room0);
      st := step.value.next;
      if step.value.reshuffle {
        rng.Shuffle(temp);
        rem0, room0 := numSamples - |st.sampleIdx|, Room(c, st);
        PassStart(c, numSamples, temp[..], st, hasKey, key);
      }
    }
    PackFinish(c, numDocuments, numSamples, st);
    r := Ok(ListIndex(st.docIdx, st.sampleIdx + [SampleBoundary(|st.docIdx|, 0)], shuffleIdx));
  }

  // ---------------------------------------------------------------------------
  // unpacked (lines 210-233)

  /** Lines 220-228: the cyclic walk passes over document position `d`. With
      chopping off, a position past the size table is not skipped, whatever
      its labels: reading its size raises before the labels are looked at. */
  predicate UnpackedSkips(c: PackConfig, d: nat) {
    || (!c.allowChopped && d < |c.corpus.sizes| && c.corpus.sizes[d] > c.seqLength + 1)
    || (&& (c.allowChopped || d < |c.corpus.sizes|)
        && c.corpus.labels.Some? && FullyMasked(c.corpus.labels.value(d), c.seqLength))
  }

  /** `(a + j) % n` for `a < n` and `j <= n`. */
  function CyclicStep(a: nat, j: nat, n: nat): nat {
    if a + j < n then a + j else a + j - n
  }

  /** How many steps forward the cyclic walk takes from `a` to reach `b`; a full
      round when they are equal. */
  function CyclicGap(a: nat, b: nat, n: nat): int {
    if a < b then b - a else b + n - a
  }

  /** Every position strictly between `a` and `b` on the cyclic walk is skipped. */
  predicate SkippedBetween(c: PackConfig, a: nat, b: nat, n: nat) {
    forall j :: 1 <= j < CyclicGap(a, b, n) ==> UnpackedSkips(c, CyclicStep(a, j, n))
  }

  /** Lines 214-216: sample `i` starts at doc-idx position `i`, offset 0. */
  function UnpackedBoundaries(numSamples: nat): (si: seq<SampleBoundary>)
    ensures |si| == numSamples + 1
    ensures forall i :: 0 <= i <= numSamples ==> si[i] == SampleBoundary(i, 0)
  {
    seq(numSamples + 1, i => SampleBoundary(i, 0))
  }

  /** What unpacked saves: one document per sample, `numSamples + 1` of them,
      the first documents in cyclic order that the walk does not skip. */
  predicate UnpackedIndexValid(c: PackConfig, n: nat, numSamples: nat, ds: seq<nat>, si: seq<SampleBoundary>) {
    && c.corpus.labels.Some?
    && |ds| == numSamples + 1
    && si == UnpackedBoundaries(numSamples)
    && (forall k :: 0 <= k < |ds| ==> ds[k] < n && !UnpackedSkips(c, ds[k]))
    && (!c.allowChopped ==> forall k :: 0 <= k < |ds| ==> ds[k] < |c.corpus.sizes| && c.corpus.sizes[ds[k]] <= c.seqLength + 1)
    && (forall j :: 0 <= j < ds[0] ==> UnpackedSkips(c, j))
    && (forall k :: 0 < k < |ds| ==> SkippedBetween(c, ds[k - 1], ds[k], n))
  }

  /** Distance still to walk from `d` to `target`. */
  function WalkDistance(d: nat, target: nat, n: nat): int {
    if d <= target then target - d else target + n - d
  }

  lemma CyclicGapOfStep(a: nat, g: nat, n: nat)
    requires a < n && 1 <= g <= n
    ensures CyclicGap(a, CyclicStep(a, g, n), n) == g
  {
  }

  /** Lines 229-230: the next position of the walk. */
  lemma AdvanceIsStep(d: nat, n: nat)
    requires d < n
    ensures (d + 1) % n == CyclicStep(d, 1, n)
  {
  }

  /** The walk's position after the last placement, `gap` steps on, with
      every position in between skipped. */
  predicate LastGap(c: PackConfig, n: nat, last: nat, docI: nat, gap: nat) {
    && 1 <= gap <= n
    && docI == CyclicStep(last, gap, n)
    && forall j :: 1 <= j < gap ==> UnpackedSkips(c, CyclicStep(last, j, n))
  }

  /** What the cyclic walk keeps true: the documents placed so far and the
      position it stands on. */
  predicate WalkInv(c: PackConfig, n: nat, ds: seq<nat>, docI: nat, gap: nat) {
    && docI < n
    && (forall k :: 0 <= k < |ds| ==> ds[k] < n && !UnpackedSkips(c, ds[k]))
    && (|ds| == 0 ==> forall j :: 0 <= j < docI ==> UnpackedSkips(c, j))
    && (|ds| > 0 ==> (forall j :: 0 <= j < ds[0] ==> UnpackedSkips(c, j)) && LastGap(c, n, ds[|ds| - 1], docI, gap))
    && (forall k :: 0 < k < |ds| ==> SkippedBetween(c, ds[k - 1], ds[k], n))
  }

  /** Passing over a skipped position keeps the invariant; before the first
      placement the walk cannot pass a position that is never skipped. */
  lemma WalkSkip(c: PackConfig, n: nat, ds: seq<nat>, docI: nat, gap: nat, target: nat)
    requires WalkInv(c, n, ds, docI, gap) && UnpackedSkips(c, docI)
    requires target < n && !UnpackedSkips(c, target)
    ensures WalkInv(c, n, ds, (docI + 1) % n, gap + 1)
    ensures WalkDistance((docI + 1) % n, target, n) < WalkDistance(docI, target, n)
  {
    AdvanceIsStep(docI, n);
    if |ds| > 0 {
      var last := ds[|ds| - 1];
      assert gap < n;
      assert CyclicStep(last, gap + 1, n) == (docI + 1) % n;
    } else {
      assert docI < target;
    }
  }

  /** Placing the document at the walk's position keeps the invariant. */
  lemma WalkPlace(c: PackConfig, n: nat, ds: seq<nat>, docI: nat, gap: nat)
    requires WalkInv(c, n, ds, docI, gap) && !UnpackedSkips(c, docI)
    ensures WalkInv(c, n, ds + [docI], (docI + 1) % n, 1)
  {
    AdvanceIsStep(docI, n);
    var ds' := ds + [docI];
    if |ds| > 0 {
      CyclicGapOfStep(ds[|ds| - 1], gap, n);
      assert SkippedBetween(c, ds'[|ds| - 1], ds'[|ds|], n);
    }
    assert ds'[..|ds|] == ds;
  }

  /** unpacked: one document per sample, walking the positions cyclically from 0
      and skipping documents that are too long (chopping off) or fully masked.
      The label dataset is read unconditionally, so without one the walk raises
      AttributeError at the first document it does not skip for length. The
      source loops for ever when every document is skipped; the requires rules
      that out. */
  method Unpacked(c: PackConfig, numDocuments: nat, numSamples: nat, rng: Rng.RandomState)
    returns (r: Result<ListIndex>)
    requires numDocuments == 0 || exists d :: 0 <= d < numDocuments && !UnpackedSkips(c, d)
    modifies rng
    ensures r.Ok? ==> UnpackedIndexValid(c, numDocuments, numSamples, r.value.docIdx, r.value.sampleIdx)
    ensures r.Ok? ==> IsPermutationOfRange(r.value.shuffleIdx, numSamples)
    ensures c.corpus.labels.None? || numDocuments == 0 ==> r.Err?
    ensures r.Err? && 0 < numDocuments ==>
              || (r.error == IndexError && !c.allowChopped && |c.corpus.sizes| < numDocuments)
              || (r.error == AttributeError && c.corpus.labels.None?)
  {
    var shuffleArr := Arange(numSamples);
    rng.Shuffle(shuffleArr);
    var shuffleIdx := shuffleArr[..];
    var sampleIdx := UnpackedBoundaries(numSamples);
    var n := numDocuments;
    if n == 0 {
      // Document 0 is read, then `(doc_i + 1) % len(documents)` divides by zero.
      if !c.allowChopped && |c.corpus.sizes| == 0 {
        return Err(IndexError);
      }
      if (c.allowChopped || c.corpus.sizes[0] <= c.seqLength + 1) && c.corpus.labels.None? {
        return Err(AttributeError);
      }
      return Err(ZeroDivisionError);
    }
    ghost var target :| 0 <= target < n && !UnpackedSkips(c, target);
    var docIdx: seq<nat> := [];
    var docI: nat := 0;
    ghost var gap: nat := 0;
    while |docIdx| <= numSamples
      invariant WalkInv(c, n, docIdx, docI, gap)
      invariant |docIdx| <= numSamples + 1
      invariant |docIdx| > 0 ==> c.corpus.labels.Some?
      invariant !c.allowChopped ==> forall k :: 0 <= k < |docIdx| ==>
                  docIdx[k] < |c.corpus.sizes| && c.corpus.sizes[docIdx[k]] <= c.seqLength + 1
      decreases numSamples + 1 - |docIdx|, WalkDistance(docI, target, n)
    {
      var skip := false;
      if !c.allowChopped {
        if docI >= |c.corpus.sizes| {
          return Err(IndexError);
        }
        skip := c.corpus.sizes[docI] > c.seqLength + 1;
      }
      if !skip {
        if c.corpus.labels.None? {
          return Err(AttributeError);
        }
        skip := FullyMasked(c.corpus.labels.value(docI), c.seqLength);
      }
      if skip {
        WalkSkip(c, n, docIdx, docI, gap, target);
        gap := gap + 1;
      } else {
        WalkPlace(c, n, docIdx, docI, gap);
        docIdx := docIdx + [docI];
        gap := 1;
      }
      docI := (docI + 1) % n;
    }
    r := Ok(ListIndex(docIdx, sampleIdx, shuffleIdx));
  }

  // ---------------------------------------------------------------------------
  // build_index_mappings (lines 63-233)

  /** Reused: all three cache files exist and nothing is built. NotBuilt: the
      packing implementation matches no branch and nothing is saved.
      SavedPacked / SavedList: the arrays written under the three file names. */
  datatype BuildOutcome =
    | Reused
    | NotBuilt
    | SavedPacked(files: IndexFiles, docIdx: seq<int>, sampleIdx: seq<SampleBoundary>, shuffleIdx: seq<nat>)
    | SavedList(files: IndexFiles, index: ListIndex)

  /** The C++ `megatron.data.helpers.build_sample_idx_int32/int64(sizes,
      doc_idx, seq_length, num_epochs, tokens_per_epoch)`; the flag selects the
      int64 variant. */
  type SampleIdxHelper = (seq<nat>, seq<int>, nat, nat, nat, bool) -> seq<SampleBoundary>

  /** The epoch count the build uses: the one given, or else the least count
      that yields enough samples (lines 86-87). */
  predicate EpochsUsed(e: nat, numEpochs: nat, tokensPerEpoch: nat, seqLength: nat, numSamples: nat) {
    if numEpochs > 0 then e == numEpochs
    else
      && e >= 1
      && EnoughEpochs(e, tokensPerEpoch, seqLength, numSamples)
      && forall k :: 1 <= k < e ==> !EnoughEpochs(k, tokensPerEpoch, seqLength, numSamples)
  }

  /** Line 140: the int64 helper is chosen unless 2 * (num_samples + 1) < int32
      max, where num_samples = (num_epochs * tokens_per_epoch - 1) / seq_length
      (line 139) is numpy's true division, exact here. A zero seq_length raises
      nothing: a negative numerator gives -inf, which passes the comparison (the
      int32 helper), and a zero or positive one gives nan or +inf, which fail it
      (the int64 helper). */
  function WideSampleIdx(numEpochs: nat, tokensPerEpoch: nat, seqLength: nat): bool {
    var x := numEpochs * tokensPerEpoch - 1;
    if seqLength == 0 then x >= 0
    else
      var numSamples: real := x as real / seqLength as real;
      !(2.0 * (numSamples + 1.0) < INT32_MAX as real)
  }

  /** The packed arrays: doc-idx holds each document once per epoch, sample-idx
      is the helper's result on it, and shuffle-idx permutes its samples. */
  ghost predicate PackedArraysValid(documents: seq<nat>, corpus: Corpus, seqLength: nat, numSamples: nat,
                                    numEpochs: nat, buildSampleIdx: SampleIdxHelper,
                                    docIdx: seq<int>, sampleIdx: seq<SampleBoundary>, shuffleIdx: seq<nat>)
  {
    && InTable(documents, corpus.sizes)
    && IsPermutationOfRange(shuffleIdx, if |sampleIdx| == 0 then 0 else |sampleIdx| - 1)
    && (var t := NumTokens(documents, corpus.sizes);
        exists e :: EpochsUsed(e, numEpochs, t, seqLength, numSamples)
          && multiset(docIdx) == multiset(Stack(CastInt32(documents), e))
          && sampleIdx == buildSampleIdx(corpus.sizes, docIdx, seqLength, e, t, WideSampleIdx(e, t, seqLength)))
  }

  function FilesOf(name: string, dataPrefix: string, numSamples: nat, seqLength: nat, seed: nat,
                   packingImpl: string, allowChopped: bool): IndexFiles
  {
    IndexFileNames(Filename(dataPrefix, name, numSamples, seqLength, seed, packingImpl, allowChopped))
  }

  /** The arguments pass the two checks made before the cache files are
      looked at: every document is in the size table (line 85) and the seed is
      one `np.random.RandomState` accepts (line 97). The epoch search between
      them (lines 86-87) raises nothing: numpy's floor division by a zero
      sequence length gives 0. */
  predicate Admitted(documents: seq<nat>, corpus: Corpus, seed: int) {
    && InTable(documents, corpus.sizes)
    && 0 <= seed < 0x1_0000_0000
  }

  /** Lines 122-233 once the cache files are missing: build the arrays under
      the chosen packing implementation, with `epochs` the epoch count of
      lines 86-87 and `rng` the generator seeded at line 97. */
  method BuildArrays(
    documents: seq<nat>, corpus: Corpus, numSamples: nat, numEpochs: nat, epochs: nat, seqLength: nat,
    packingImpl: string, allowChopped: bool, files: IndexFiles, buildSampleIdx: SampleIdxHelper,
    rng: Rng.RandomState)
    returns (r: Result<BuildOutcome>)
    modifies rng
    requires InTable(documents, corpus.sizes)
    requires EpochsUsed(epochs, numEpochs, NumTokens(documents, corpus.sizes), seqLength, numSamples)
    requires packingImpl == "unpacked" && 0 < |documents| ==>
               exists d :: 0 <= d < |documents| && !UnpackedSkips(PackConfig(corpus, seqLength, allowChopped), d)
    ensures var c := PackConfig(corpus, seqLength, allowChopped);
            && (packingImpl == "packed" ==> r.Ok? && r.value.SavedPacked?)
            && (packingImpl == "pack_until_overflow" ==>
                  && (r.Ok? ==> r.value.SavedList?)
                  && (r.Err? ==> r.error == IndexError && numSamples > 0
                                 && (|documents| == 0 || |documents| > |corpus.sizes|
                                     || exists d :: 0 <= d < |documents| && d < |corpus.sizes| && PackSkips(c, d)))
                  && ((&& allowChopped && corpus.labels.None? && |documents| <= |corpus.sizes|
                       && (|documents| > 0 || numSamples == 0)) ==> r.Ok?))
            && (packingImpl == "unpacked" ==>
                  && (r.Ok? ==> r.value.SavedList?)
                  && (|documents| == 0 || corpus.labels.None? ==> r.Err?)
                  && (r.Err? && 0 < |documents| ==>
                        || (r.error == IndexError && !allowChopped && |corpus.sizes| < |documents|)
                        || (r.error == AttributeError && corpus.labels.None?)))
            && ((&& packingImpl != "packed" && packingImpl != "pack_until_overflow"
                 && packingImpl != "unpacked") ==> r == Ok(NotBuilt))
    ensures r.Ok? && (r.value.SavedPacked? || r.value.SavedList?) ==> r.value.files == files
    ensures r.Ok? && r.value.SavedPacked? ==>
              packingImpl == "packed"
              && PackedArraysValid(documents, corpus, seqLength, numSamples, numEpochs, buildSampleIdx,
                                   r.value.docIdx, r.value.sampleIdx, r.value.shuffleIdx)
    ensures r.Ok? && r.value.SavedList? ==>
              var ix := r.value.index;
              var c := PackConfig(corpus, seqLength, allowChopped);
              && IsPermutationOfRange(ix.shuffleIdx, numSamples)
              && (packingImpl == "pack_until_overflow" ==> PackedIndexValid(c, |documents|, numSamples, ix.docIdx, ix.sampleIdx))
              && (packingImpl == "unpacked" ==> UnpackedIndexValid(c, |documents|, numSamples, ix.docIdx, ix.sampleIdx))
              && (packingImpl == "pack_until_overflow" || packingImpl == "unpacked")
  {
    var cfg := PackConfig(corpus, seqLength, allowChopped);
    var tokensPerEpoch := NumTokens(documents, corpus.sizes);
    if packingImpl == "packed" {
      var docIdxArr := BuildDocIdx(documents, epochs, rng);
      var docIdx := docIdxArr[..];
      assert EpochsUsed(epochs, numEpochs, tokensPerEpoch, seqLength, numSamples);
      var wide := WideSampleIdx(epochs, tokensPerEpoch, seqLength);
      var sampleIdx := buildSampleIdx(corpus.sizes, docIdx, seqLength, epochs, tokensPerEpoch, wide);
      var _, shuffleArr := BuildShuffleIdx(|sampleIdx| - 1, rng);
      r := Ok(SavedPacked(files, docIdx, sampleIdx, shuffleArr[..]));
    } else if packingImpl == "pack_until_overflow" {
      var built := PackUntilOverflow(cfg, |documents|, numSamples, rng);
      if built.Err? {
        return Err(built.error);
      }
      r := Ok(SavedList(files, built.value));
    } else if packingImpl == "unpacked" {
      var built := Unpacked(cfg, |documents|, numSamples, rng);
      if built.Err? {
        return Err(built.error);
      }
      r := Ok(SavedList(files, built.value));
    } else {
      r := Ok(NotBuilt);
    }
  }

  /** `build_index_mappings`: derive the cache file names, reuse them when all
      three exist, otherwise build the arrays under the chosen packing
      implementation. `isFile` stands for `os.path.isfile`. */
  method BuildIndexMappings(
    name: string, dataPrefix: string, documents: seq<nat>, corpus: Corpus,
    numSamples: nat, numEpochs: nat, seqLength: nat, seed: int,
    packingImpl: string, allowChopped: bool,
    isFile: string -> bool, buildSampleIdx: SampleIdxHelper)
    returns (r: Result<BuildOutcome>)
    requires numEpochs == 0 && InTable(documents, corpus.sizes) ==>
               && (seqLength > 0 ==> NumTokens(documents, corpus.sizes) > 0)
               && (seqLength == 0 ==> numSamples == 0)
    requires && packingImpl == "unpacked" && 0 < |documents| && InTable(documents, corpus.sizes)
             && 0 <= seed < 0x1_0000_0000
             && NeedsBuild(isFile, FilesOf(name, dataPrefix, numSamples, seqLength, seed, packingImpl, allowChopped)) ==>
               exists d :: 0 <= d < |documents| && !UnpackedSkips(PackConfig(corpus, seqLength, allowChopped), d)
    // The checks, in the order the source makes them.
    ensures !InTable(documents, corpus.sizes) ==> r == Err(IndexError)
    ensures InTable(documents, corpus.sizes) && !(0 <= seed < 0x1_0000_0000) ==> r == Err(ValueError)
    ensures r.Ok? ==> Admitted(documents, corpus, seed)
    // What each branch gives once the checks pass.
    ensures Admitted(documents, corpus, seed) ==>
              var files := FilesOf(name, dataPrefix, numSamples, seqLength, seed, packingImpl, allowChopped);
              var c := PackConfig(corpus, seqLength, allowChopped);
              && (!NeedsBuild(isFile, files) ==> r == Ok(Reused))
              && (NeedsBuild(isFile, files) && packingImpl == "packed" ==> r.Ok? && r.value.SavedPacked?)
              && (NeedsBuild(isFile, files) && packingImpl == "pack_until_overflow" ==>
                    && (r.Ok? ==> r.value.SavedList?)
                    && (r.Err? ==> r.error == IndexError && numSamples > 0
                                   && (|documents| == 0 || |documents| > |corpus.sizes|
                                       || exists d :: 0 <= d < |documents| && d < |corpus.sizes| && PackSkips(c, d)))
                    && ((&& allowChopped && corpus.labels.None? && |documents| <= |corpus.sizes|
                         && (|documents| > 0 || numSamples == 0)) ==> r.Ok?))
              && (NeedsBuild(isFile, files) && packingImpl == "unpacked" ==>
                    && (r.Ok? ==> r.value.SavedList?)
                    && (|documents| == 0 || corpus.labels.None? ==> r.Err?)
                    && (r.Err? && 0 < |documents| ==>
                          || (r.error == IndexError && !allowChopped && |corpus.sizes| < |documents|)
                          || (r.error == AttributeError && corpus.labels.None?)))
              && ((&& NeedsBuild(isFile, files) && packingImpl != "packed"
                   && packingImpl != "pack_until_overflow" && packingImpl != "unpacked") ==> r == Ok(NotBuilt))
    // What is saved.
    ensures r.Ok? && (r.value.SavedPacked? || r.value.SavedList?) ==>
              r.value.files == FilesOf(name, dataPrefix, numSamples, seqLength, seed, packingImpl, allowChopped)
    ensures r.Ok? && r.value.SavedPacked? ==>
              packingImpl == "packed"
              && PackedArraysValid(documents, corpus, seqLength, numSamples, numEpochs, buildSampleIdx,
                                   r.value.docIdx, r.value.sampleIdx, r.value.shuffleIdx)
    ensures r.Ok? && r.value.SavedList? ==>
              var ix := r.value.index;
              var c := PackConfig(corpus, seqLength, allowChopped);
              && IsPermutationOfRange(ix.shuffleIdx, numSamples)
              && (packingImpl == "pack_until_overflow" ==> PackedIndexValid(c, |documents|, numSamples, ix.docIdx, ix.sampleIdx))
              && (packingImpl == "unpacked" ==> UnpackedIndexValid(c, |documents|, numSamples, ix.docIdx, ix.sampleIdx))
              && (packingImpl == "pack_until_overflow" || packingImpl == "unpacked")
  {
    if !InTable(documents, corpus.sizes) {
      return Err(IndexError);
    }
    var tokensPerEpoch := NumTokens(documents, corpus.sizes);
    var epochs := numEpochs;
    if epochs == 0 {
      epochs := NumEpochs(tokensPerEpoch, seqLength, numSamples);
    }
    if seed < 0 || seed >= 0x1_0000_0000 {
      return Err(ValueError);
    }
    var rng := new Rng.RandomState(seed);
    var files := FilesOf(name, dataPrefix, numSamples, seqLength, seed, packingImpl, allowChopped);
    if !NeedsBuild(isFile, files) {
      return Ok(Reused);
    }
    r := BuildArrays(documents, corpus, numSamples, numEpochs, epochs, seqLength, packingImpl, allowChopped,
                     files, buildSampleIdx, rng);
  }
}
