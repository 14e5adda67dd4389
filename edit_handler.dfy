/** `EditHandler` (tokensmith/edit/handler.py): argument validation, the EOS
    rule and the report of `inject_and_preview`, the batch loop of
    `inject_multiple_samples`, the checks of `preview_sample` and
    `validate_injection_location`.

    The writeable dataset is a collaborator whose code is outside the model.
    It is given as two oracles that see the list of calls made to it so far,
    so a later answer may depend on an earlier injection; the handler's own
    effect on the dataset is exactly the list of calls it appends. */
module EditHandler {
  import opened Common

  // ---------------------------------------------------------------------------
  // Python values the handler inspects

  /** An argument as the handler sees it. `PyOther` stands for any other
      object (a float, a list, ...). */
  datatype PyValue = PyStr(s: string) | PyInt(i: int) | PyBool(b: bool) | PyNone | PyOther

  /** `isinstance(v, int) and v >= 0`; a `bool` is an `int` in Python, so
      `True` is accepted as location 1. */
  function AsIndex(v: PyValue): (r: Option<nat>)
    ensures r.Some? <==> (v.PyInt? && v.i >= 0) || v.PyBool?
    ensures v.PyInt? && v.i >= 0 ==> r == Some(v.i)
  {
    match v
    case PyInt(i) => if i >= 0 then Some(i) else None
    case PyBool(b) => Some(if b then 1 else 0)
    case _ => None
  }

  datatype InjectionType = SeqShuffle | SeqStart

  /** `injection_type in ("seq_shuffle", "seq_start")`. */
  function ParseInjectionType(v: PyValue): (r: Option<InjectionType>)
    ensures r.Some? <==> v == PyStr("seq_shuffle") || v == PyStr("seq_start")
    ensures r == Some(SeqShuffle) <==> v == PyStr("seq_shuffle")
  {
    if v == PyStr("seq_shuffle") then Some(SeqShuffle)
    else if v == PyStr("seq_start") then Some(SeqStart)
    else None
  }

  /** A tokenizer: `tokenizer(text)["input_ids"]` (None when that raises), the
      `eos_token_id` attribute (None when missing or None) and the `decode`
      method (None when missing). */
  datatype Tokenizer = Tokenizer(encode: string -> Option<seq<int>>,
                                 eosTokenId: Option<int>,
                                 decode: Option<seq<int> -> string>)

  /** A random generator handed to the dataset: one the caller supplied, or
      `np.random.default_rng(seed)`. */
  datatype Generator = Supplied(id: nat) | DefaultRng(seed: nat)

  const DEFAULT_SEED: nat := 1234

  /** `rng or np.random.default_rng(1234)`. */
  function EffectiveRng(rng: Option<Generator>): Generator {
    rng.GetOr(DefaultRng(DEFAULT_SEED))
  }

  // ---------------------------------------------------------------------------
  // The dataset as seen through its calls

  datatype DatasetCall =
    | GetExample(loc: nat, withDocDetails: bool)
    | InjectExample(loc: nat, data: seq<int>, injectionType: InjectionType, rng: Generator, dryRun: bool)

  /** What `get_example_by_id` returns: one token array per document the
      sample draws on, and the document details. */
  datatype Example = Example(segments: seq<seq<int>>, docDetails: PyValue)

  /** The dataset's answers, given the calls made before; None means the call
      raised. `inject` answers with the injection details. */
  datatype Dataset = Dataset(
    getExample: (seq<DatasetCall>, nat, bool) -> Option<Example>,
    inject: (seq<DatasetCall>, nat, seq<int>, InjectionType, Generator, bool) -> Option<PyValue>)

  /** A result and the calls made to the dataset up to the point it was
      reached (also when it is an error). */
  datatype Outcome<T> = Outcome(result: Result<T>, trace: seq<DatasetCall>)

  // ---------------------------------------------------------------------------
  // inject_and_preview

  datatype InjectionArgs = InjectionArgs(text: string, tokenizer: Tokenizer, loc: nat, injectionType: InjectionType)

  /** Lines 53-61: the four checks, each failing with ValueError. */
  function ValidateInjection(text: PyValue, tokenizer: Option<Tokenizer>, loc: PyValue,
                             injectionType: PyValue): (r: Result<InjectionArgs>)
    ensures r.Ok? <==> text.PyStr? && tokenizer.Some? && AsIndex(loc).Some?
                       && ParseInjectionType(injectionType).Some?
    ensures r.Err? ==> r.error == ValueError
    ensures r.Ok? ==> r.value == InjectionArgs(text.s, tokenizer.value, AsIndex(loc).value,
                                               ParseInjectionType(injectionType).value)
  {
    if !text.PyStr? then Err(ValueError)
    else if tokenizer.None? then Err(ValueError)
    else match AsIndex(loc)
      case None => Err(ValueError)
      case Some(i) =>
        match ParseInjectionType(injectionType)
        case None => Err(ValueError)
        case Some(t) => Ok(InjectionArgs(text.s, tokenizer.value, i, t))
  }

  predicate EndsWith(s: seq<int>, x: int) {
    |s| > 0 && s[|s| - 1] == x
  }

  /** Lines 70-76: with `add_eos_token` and a known EOS id, the payload ends in
      exactly one appended EOS unless it already ends in EOS; otherwise it is
      left as tokenized. */
  function WithEos(payload: seq<int>, addEos: bool, eos: Option<int>): (r: seq<int>)
    ensures |payload| <= |r| <= |payload| + 1 && r[..|payload|] == payload
    ensures addEos && eos.Some? ==> EndsWith(r, eos.value)
    ensures r == payload <==> !(addEos && eos.Some?) || EndsWith(payload, eos.value)
  {
    if addEos && eos.Some? && !EndsWith(payload, eos.value) then payload + [eos.value] else payload
  }

  /** Applying the rule a second time changes nothing. */
  lemma WithEosIdempotent(payload: seq<int>, addEos: bool, eos: Option<int>)
    ensures WithEos(WithEos(payload, addEos, eos), addEos, eos) == WithEos(payload, addEos, eos)
  {
  }

  /** Lines 64-76: tokenize (any failure is a ValueError) and apply the EOS rule. */
  function Payload(tokenizer: Tokenizer, text: string, addEos: bool): (r: Result<seq<int>>)
    ensures r.Err? <==> tokenizer.encode(text).None?
    ensures r.Err? ==> r.error == ValueError
    ensures r.Ok? ==> r.value == WithEos(tokenizer.encode(text).value, addEos, tokenizer.eosTokenId)
  {
    match tokenizer.encode(text)
    case None => Err(ValueError)
    case Some(ids) => Ok(WithEos(ids, addEos, tokenizer.eosTokenId))
  }

  /** `np.concatenate`: the segments joined in order. */
  function Concat(segments: seq<seq<int>>): (r: seq<int>)
    ensures |segments| == 1 ==> r == segments[0]
    ensures forall k :: 0 <= k < |segments| ==> |segments[k]| <= |r|
  {
    if |segments| == 0 then [] else Concat(segments[..|segments| - 1]) + segments[|segments| - 1]
  }

  /** Concatenation distributes over joined segment lists. */
  lemma {:induction false} ConcatAppend(a: seq<seq<int>>, b: seq<seq<int>>)
    ensures Concat(a + b) == Concat(a) + Concat(b)
    decreases |b|
  {
    if |b| == 0 {
      assert a + b == a;
    } else {
      var i := |b| - 1;
      var ab := a + b;
      assert ab[..|ab| - 1] == a + b[..i] && ab[|ab| - 1] == b[i];
      ConcatAppend(a, b[..i]);
      calc {
        Concat(ab);
        Concat(a + b[..i]) + b[i];
        (Concat(a) + Concat(b[..i])) + b[i];
        Concat(a) + (Concat(b[..i]) + b[i]);
        Concat(a) + Concat(b);
      }
    }
  }

  /** `tokenizer.decode(x)`, or `str(x)` of the array when there is no `decode`. */
  datatype Rendering = Decoded(text: string) | ArrayRepr(tokens: seq<int>)

  datatype SampleView = SampleView(rawTokens: seq<int>, decodedText: Rendering, numDocuments: nat)

  /** Lines 92-93 and 123-124: `np.concatenate` raises ValueError on a sample
      with no segments. */
  function ViewSample(tokenizer: Tokenizer, ex: Example): (r: Result<SampleView>)
    ensures r.Err? <==> |ex.segments| == 0
    ensures r.Err? ==> r.error == ValueError
    ensures r.Ok? ==> r.value.rawTokens == Concat(ex.segments) && r.value.numDocuments == |ex.segments|
    ensures r.Ok? ==> (r.value.decodedText.Decoded? <==> tokenizer.decode.Some?)
    ensures r.Ok? ==> r.value.decodedText == if tokenizer.decode.Some? then Decoded(tokenizer.decode.value(r.value.rawTokens))
                                             else ArrayRepr(r.value.rawTokens)
  {
    if |ex.segments| == 0 then Err(ValueError)
    else
      var raw := Concat(ex.segments);
      Ok(SampleView(raw, if tokenizer.decode.Some? then Decoded(tokenizer.decode.value(raw)) else ArrayRepr(raw),
                    |ex.segments|))
  }

  /** The returned dictionary of lines 132-150. */
  datatype InjectionReport = InjectionReport(
    injectionLocation: PyValue,
    injectionType: InjectionType,
    dryRun: bool,
    injectedText: string,
    injectedTokens: seq<int>,
    originalSample: SampleView,
    modifiedSample: SampleView,
    injectionDetails: PyValue)

  /** The three dataset calls every successful injection makes, in order: read
      the sample, inject, read it again. */
  function InjectionCalls(loc: nat, payload: seq<int>, t: InjectionType, g: Generator, dryRun: bool): seq<DatasetCall> {
    [GetExample(loc, false), InjectExample(loc, payload, t, g, dryRun), GetExample(loc, false)]
  }

  /** Lines 63-150 once the arguments are valid; every failure is a ValueError. */
  function RunInjection(args: InjectionArgs, locValue: PyValue, rng: Option<Generator>, addEos: bool,
                        dryRun: bool, ds: Dataset, history: seq<DatasetCall>): (o: Outcome<InjectionReport>)
    ensures o.result.Err? ==> o.result.error == ValueError
    ensures |history| <= |o.trace| <= |history| + 3 && o.trace[..|history|] == history
    ensures forall k :: |history| <= k < |o.trace| && o.trace[k].InjectExample? ==>
              Payload(args.tokenizer, args.text, addEos).Ok? &&
              o.trace[k] == InjectExample(args.loc, Payload(args.tokenizer, args.text, addEos).value,
                                          args.injectionType, EffectiveRng(rng), dryRun)
    ensures o.result.Ok? ==>
              var rep := o.result.value;
              && Payload(args.tokenizer, args.text, addEos) == Ok(rep.injectedTokens)
              && o.trace == history + InjectionCalls(args.loc, rep.injectedTokens, args.injectionType,
                                                     EffectiveRng(rng), dryRun)
              && rep.injectionLocation == locValue && rep.injectionType == args.injectionType
              && rep.injectedText == args.text && rep.dryRun == dryRun
              && ds.getExample(history, args.loc, false).Some?
              && ViewSample(args.tokenizer, ds.getExample(history, args.loc, false).value) == Ok(rep.originalSample)
              && ds.inject(history + [GetExample(args.loc, false)], args.loc, rep.injectedTokens,
                           args.injectionType, EffectiveRng(rng), dryRun) == Some(rep.injectionDetails)
              && var edited := ds.getExample(history + [GetExample(args.loc, false)]
                                                  + [InjectExample(args.loc, rep.injectedTokens, args.injectionType,
                                                                   EffectiveRng(rng), dryRun)], args.loc, false);
                 edited.Some? && ViewSample(args.tokenizer, edited.value) == Ok(rep.modifiedSample)
  {
    match Payload(args.tokenizer, args.text, addEos)
    case Err(e) => Outcome(Err(e), history)
    case Ok(payload) =>
      var g := EffectiveRng(rng);
      var h1 := history + [GetExample(args.loc, false)];
      match ds.getExample(history, args.loc, false)
      case None => Outcome(Err(ValueError), h1)
      case Some(orig) =>
        match ViewSample(args.tokenizer, orig)
        case Err(e) => Outcome(Err(e), h1)
        case Ok(origView) =>
          var h2 := h1 + [InjectExample(args.loc, payload, args.injectionType, g, dryRun)];
          match ds.inject(h1, args.loc, payload, args.injectionType, g, dryRun)
          case None => Outcome(Err(ValueError), h2)
          case Some(details) =>
            var h3 := h2 + [GetExample(args.loc, false)];
            match ds.getExample(h2, args.loc, false)
            case None => Outcome(Err(ValueError), h3)
            case Some(edited) =>
              match ViewSample(args.tokenizer, edited)
              case Err(e) => Outcome(Err(e), h3)
              case Ok(editedView) =>
                Outcome(Ok(InjectionReport(locValue, args.injectionType, dryRun, args.text, payload,
                                           origView, editedView, details)), h3)
  }

  /** `inject_and_preview`: invalid arguments are rejected before the dataset
      is touched; the report comes back only with `return_details`. */
  function InjectAndPreview(text: PyValue, tokenizer: Option<Tokenizer>, loc: PyValue, injectionType: PyValue,
                            rng: Option<Generator>, addEos: bool, dryRun: bool, returnDetails: bool,
                            ds: Dataset, history: seq<DatasetCall>): (o: Outcome<Option<InjectionReport>>)
    ensures ValidateInjection(text, tokenizer, loc, injectionType).Err? ==> o == Outcome(Err(ValueError), history)
    ensures o.result.Err? ==> o.result.error == ValueError
    ensures o.result.Ok? ==> (o.result.value.Some? <==> returnDetails)
    ensures ValidateInjection(text, tokenizer, loc, injectionType).Ok? ==>
              var run := RunInjection(ValidateInjection(text, tokenizer, loc, injectionType).value, loc, rng,
                                      addEos, dryRun, ds, history);
              && o.trace == run.trace
              && (o.result.Ok? <==> run.result.Ok?)
              && (o.result.Ok? && returnDetails ==> o.result.value.value == run.result.value)
  {
    match ValidateInjection(text, tokenizer, loc, injectionType)
    case Err(e) => Outcome(Err(e), history)
    case Ok(args) =>
      var run := RunInjection(args, loc, rng, addEos, dryRun, ds, history);
      match run.result
      case Err(e) => Outcome(Err(e), run.trace)
      case Ok(rep) => Outcome(Ok(if returnDetails then Some(rep) else None), run.trace)
  }

  // ---------------------------------------------------------------------------
  // inject_multiple_samples

  /** One element of the `injections` list: not a dict, or a dict whose three
      keys may each be missing. */
  datatype InjectionEntry =
    | NotADict
    | Entry(text: Option<PyValue>, injectionLoc: Option<PyValue>, injectionType: Option<PyValue>)

  datatype BatchInput = NotAList | Entries(items: seq<InjectionEntry>)

  /** One element of the returned list: a report, or the error dictionary
      `{"error": ..., "injection_index": i}`. */
  datatype BatchItem = Injected(report: InjectionReport) | Failed(error: PyError, injectionIndex: nat)

  /** Lines 191-195: entries the batch refuses outright. */
  predicate Malformed(e: InjectionEntry) {
    e.NotADict? || e.text.None? || e.injectionLoc.None?
  }

  /** Line 197: a missing `injection_type` means `"seq_shuffle"`. */
  function EntryType(e: InjectionEntry): PyValue
    requires e.Entry?
  {
    e.injectionType.GetOr(PyStr("seq_shuffle"))
  }

  /** Lines 199-215 for entry `i`: inject with details and record a report or
      the caught error. */
  function BatchStep(e: InjectionEntry, i: nat, tokenizer: Tokenizer, rng: Option<Generator>, addEos: bool,
                     dryRun: bool, ds: Dataset, history: seq<DatasetCall>): (o: Outcome<BatchItem>)
    requires !Malformed(e)
    ensures o.result.Ok?
    ensures o.result.value.Failed? ==> o.result.value == Failed(ValueError, i)
    ensures |history| <= |o.trace| && o.trace[..|history|] == history
    ensures forall k :: |history| <= k < |o.trace| && o.trace[k].InjectExample? ==>
              o.trace[k].rng == EffectiveRng(rng)
    ensures o.result.value.Injected? ==>
              && o.result.value.report.injectionLocation == e.injectionLoc.value
              && PyStr(o.result.value.report.injectedText) == e.text.value
              && Some(o.result.value.report.injectionType) == ParseInjectionType(EntryType(e))
  {
    var o := InjectAndPreview(e.text.value, Some(tokenizer), e.injectionLoc.value, EntryType(e), rng,
                              addEos, dryRun, true, ds, history);
    match o.result
    case Err(err) => Outcome(Ok(Failed(err, i)), o.trace)
    case Ok(rep) => Outcome(Ok(Injected(rep.value)), o.trace)
  }

  /** An entry of a batch is `inject_and_preview` with details (lines 199-207):
      the same calls on the dataset, a report exactly when the injection
      succeeds, and that injection's report. */
  lemma BatchStepInjects(e: InjectionEntry, i: nat, tokenizer: Tokenizer, rng: Option<Generator>, addEos: bool,
                         dryRun: bool, ds: Dataset, history: seq<DatasetCall>)
    requires !Malformed(e)
    ensures var o := BatchStep(e, i, tokenizer, rng, addEos, dryRun, ds, history);
            var a := InjectAndPreview(e.text.value, Some(tokenizer), e.injectionLoc.value, EntryType(e), rng,
                                      addEos, dryRun, true, ds, history);
            && o.trace == a.trace
            && (o.result.value.Injected? <==> a.result.Ok?)
            && (a.result.Ok? ==> a.result.value.Some? && o.result.value == Injected(a.result.value.value))
            && (a.result.Err? ==> o.result.value == Failed(a.result.error, i))
  {
  }

  /** Item `k` of a batch's result is entry `k`'s report, for its location and
      text, or the error dictionary carrying index `k`. */
  predicate ItemsMatch(items: seq<BatchItem>, entries: seq<InjectionEntry>) {
    forall k :: 0 <= k < |items| && k < |entries| ==>
      && (items[k].Failed? ==> items[k] == Failed(ValueError, k))
      && (items[k].Injected? ==>
            && entries[k].Entry?
            && entries[k].injectionLoc == Some(items[k].report.injectionLocation)
            && entries[k].text == Some(PyStr(items[k].report.injectedText)))
  }

  lemma ItemsMatchExtend(items: seq<BatchItem>, entries: seq<InjectionEntry>, x: BatchItem)
    requires |entries| > 0 && |items| == |entries| - 1
    requires ItemsMatch(items, entries[..|items|])
    requires x.Failed? ==> x == Failed(ValueError, |items|)
    requires !Malformed(entries[|items|])
    requires x.Injected? ==>
               && x.report.injectionLocation == entries[|items|].injectionLoc.value
               && PyStr(x.report.injectedText) == entries[|items|].text.value
    ensures ItemsMatch(items + [x], entries)
  {
    forall k | 0 <= k < |items|
      ensures (items + [x])[k] == items[k] && entries[..|items|][k] == entries[k]
    {
    }
  }

  /** The loop of lines 190-222 over `entries`, threading the dataset's call
      list; the first malformed entry aborts the whole batch. */
  function RunBatch(entries: seq<InjectionEntry>, tokenizer: Tokenizer, rng: Option<Generator>, addEos: bool,
                    dryRun: bool, ds: Dataset, history: seq<DatasetCall>): (o: Outcome<seq<BatchItem>>)
    ensures o.result.Err? <==> exists k :: 0 <= k < |entries| && Malformed(entries[k])
    ensures o.result.Err? ==> o.result.error == ValueError
    ensures o.result.Ok? ==> |o.result.value| == |entries|
    ensures o.result.Ok? ==> ItemsMatch(o.result.value, entries)
    decreases |entries|
  {
    if |entries| == 0 then Outcome(Ok([]), history)
    else
      var i := |entries| - 1;
      var prev := RunBatch(entries[..i], tokenizer, rng, addEos, dryRun, ds, history);
      assert forall k :: 0 <= k < i ==> entries[..i][k] == entries[k];
      if prev.result.Err? then prev
      else if Malformed(entries[i]) then Outcome(Err(ValueError), prev.trace)
      else
        var step := BatchStep(entries[i], i, tokenizer, rng, addEos, dryRun, ds, prev.trace);
        ItemsMatchExtend(prev.result.value, entries, step.result.value);
        Outcome(Ok(prev.result.value + [step.result.value]), step.trace)
  }

  /** `inject_multiple_samples`: the list checks of lines 182-187, then the loop. */
  method InjectMultipleSamples(injections: BatchInput, tokenizer: Option<Tokenizer>, rng: Option<Generator>,
                               addEos: bool, dryRun: bool, returnDetails: bool, ds: Dataset,
                               history: seq<DatasetCall>)
    returns (r: Result<Option<seq<BatchItem>>>, trace: seq<DatasetCall>)
    ensures injections.NotAList? || |injections.items| == 0 || tokenizer.None? ==>
              r == Err(ValueError) && trace == history
    ensures injections.Entries? && |injections.items| > 0 && tokenizer.Some? ==>
              var run := RunBatch(injections.items, tokenizer.value, rng, addEos, dryRun, ds, history);
              && trace == run.trace
              && (r.Ok? <==> run.result.Ok?)
              && (r.Err? ==> r.error == ValueError)
              && (r.Ok? ==> r.value == if returnDetails then Some(run.result.value) else None)
  {
    if injections.NotAList? || |injections.items| == 0 || tokenizer.None? {
      return Err(ValueError), history;
    }
    var entries := injections.items;
    var results: seq<BatchItem> := [];
    trace := history;
    for i := 0 to |entries|
      invariant RunBatch(entries[..i], tokenizer.value, rng, addEos, dryRun, ds, history)
                == Outcome(Ok(results), trace)
    {
      RunBatchStep(entries, i, tokenizer.value, rng, addEos, dryRun, ds, history);
      if Malformed(entries[i]) {
        AbortSticks(entries, i + 1, tokenizer.value, rng, addEos, dryRun, ds, history);
        return Err(ValueError), trace;
      }
      var step := BatchStep(entries[i], i, tokenizer.value, rng, addEos, dryRun, ds, trace);
      results := results + [step.result.value];
      trace := step.trace;
    }
    assert entries[..|entries|] == entries;
    r := Ok(if returnDetails then Some(results) else None);
  }

  /** One more entry of a batch that has not aborted: a malformed entry aborts
      with the calls made so far, any other is processed by BatchStep. */
  lemma RunBatchStep(entries: seq<InjectionEntry>, i: nat, tokenizer: Tokenizer, rng: Option<Generator>,
                     addEos: bool, dryRun: bool, ds: Dataset, history: seq<DatasetCall>)
    requires i < |entries|
    requires RunBatch(entries[..i], tokenizer, rng, addEos, dryRun, ds, history).result.Ok?
    ensures var prev := RunBatch(entries[..i], tokenizer, rng, addEos, dryRun, ds, history);
            RunBatch(entries[..i + 1], tokenizer, rng, addEos, dryRun, ds, history)
            == if Malformed(entries[i]) then Outcome(Err(ValueError), prev.trace)
               else var step := BatchStep(entries[i], i, tokenizer, rng, addEos, dryRun, ds, prev.trace);
                    Outcome(Ok(prev.result.value + [step.result.value]), step.trace)
  {
    assert entries[..i + 1][..i] == entries[..i];
  }

  /** An aborted batch ignores one more entry. */
  lemma AbortedBatchStops(entries: seq<InjectionEntry>, tokenizer: Tokenizer, rng: Option<Generator>,
                          addEos: bool, dryRun: bool, ds: Dataset, history: seq<DatasetCall>)
    requires |entries| > 0
    requires RunBatch(entries[..|entries| - 1], tokenizer, rng, addEos, dryRun, ds, history).result.Err?
    ensures RunBatch(entries, tokenizer, rng, addEos, dryRun, ds, history)
         == RunBatch(entries[..|entries| - 1], tokenizer, rng, addEos, dryRun, ds, history)
  {
  }

  /** Once a prefix of the batch has aborted, later entries are never looked at. */
  lemma {:induction false} AbortSticks(entries: seq<InjectionEntry>, j: nat, tokenizer: Tokenizer,
                                       rng: Option<Generator>, addEos: bool, dryRun: bool, ds: Dataset,
                                       history: seq<DatasetCall>)
    requires j <= |entries|
    requires RunBatch(entries[..j], tokenizer, rng, addEos, dryRun, ds, history).result.Err?
    ensures RunBatch(entries, tokenizer, rng, addEos, dryRun, ds, history)
         == RunBatch(entries[..j], tokenizer, rng, addEos, dryRun, ds, history)
    decreases |entries| - j
  {
    if j < |entries| {
      assert entries[..j + 1][..j] == entries[..j];
      AbortedBatchStops(entries[..j + 1], tokenizer, rng, addEos, dryRun, ds, history);
      AbortSticks(entries, j + 1, tokenizer, rng, addEos, dryRun, ds, history);
    } else {
      assert entries[..j] == entries;
    }
  }

  /** Every call a batch appends to the dataset's list is one of an
      injection's three calls, and every injection without a caller's
      generator receives `default_rng(1234)`: each entry draws the same random
      stream afresh. */
  lemma {:induction false} BatchDefaultRng(entries: seq<InjectionEntry>, tokenizer: Tokenizer, addEos: bool,
                                           dryRun: bool, ds: Dataset, history: seq<DatasetCall>)
    ensures var o := RunBatch(entries, tokenizer, None, addEos, dryRun, ds, history);
            && |history| <= |o.trace| && o.trace[..|history|] == history
            && forall k :: |history| <= k < |o.trace| && o.trace[k].InjectExample? ==>
                 o.trace[k].rng == DefaultRng(DEFAULT_SEED)
    decreases |entries|
  {
    if |entries| > 0 {
      var i := |entries| - 1;
      BatchDefaultRng(entries[..i], tokenizer, addEos, dryRun, ds, history);
      var prev := RunBatch(entries[..i], tokenizer, None, addEos, dryRun, ds, history);
      var o := RunBatch(entries, tokenizer, None, addEos, dryRun, ds, history);
      if prev.result.Ok? && !Malformed(entries[i]) {
        var step := BatchStep(entries[i], i, tokenizer, None, addEos, dryRun, ds, prev.trace);
        assert o.trace == step.trace;
        assert o.trace[..|history|] == history by {
          assert o.trace[..|prev.trace|][..|history|] == o.trace[..|history|];
        }
        forall k | |history| <= k < |o.trace| && o.trace[k].InjectExample?
          ensures o.trace[k].rng == DefaultRng(DEFAULT_SEED)
        {
          if k < |prev.trace| {
            assert o.trace[k] == o.trace[..|prev.trace|][k] == prev.trace[k];
          }
        }
      }
    }
  }

  // ---------------------------------------------------------------------------
  // preview_sample

  datatype PreviewSeq = Segments(segments: seq<seq<int>>) | Detokenized(text: string)

  /** The sample, with the document details when they were asked for. */
  datatype Preview = Preview(sample: PreviewSeq, docDetails: Option<PyValue>)

  /** `preview_sample`: the checks of lines 249-253, one dataset read (whose
      failure propagates unchanged) and `generate_training_sample`, given as
      `detokenize`. */
  function PreviewSample(sampleId: PyValue, returnDocDetails: bool, returnDetokenized: bool,
                         tokenizer: Option<Tokenizer>, detokenize: (seq<seq<int>>, Tokenizer) -> string,
                         ds: Dataset, history: seq<DatasetCall>): (o: Outcome<Preview>)
    ensures AsIndex(sampleId).None? || (returnDetokenized && tokenizer.None?) <==>
              o == Outcome(Err(ValueError), history)
    ensures o.result.Err? ==> o.result.error in {ValueError, Raised}
    ensures o.result.Err? && o.result.error == Raised <==>
              && AsIndex(sampleId).Some? && !(returnDetokenized && tokenizer.None?)
              && ds.getExample(history, AsIndex(sampleId).value, returnDocDetails).None?
    ensures o.result.Ok? ==>
              && o.trace == history + [GetExample(AsIndex(sampleId).value, returnDocDetails)]
              && (o.result.value.docDetails.Some? <==> returnDocDetails)
              && (o.result.value.sample.Detokenized? <==> returnDetokenized)
    ensures o.result.Ok? ==>
              var read := ds.getExample(history, AsIndex(sampleId).value, returnDocDetails);
              && read.Some?
              && o.result.value.sample == (if returnDetokenized then Detokenized(detokenize(read.value.segments, tokenizer.value))
                                           else Segments(read.value.segments))
              && o.result.value.docDetails == (if returnDocDetails then Some(read.value.docDetails) else None)
  {
    match AsIndex(sampleId)
    case None => Outcome(Err(ValueError), history)
    case Some(id) =>
      if returnDetokenized && tokenizer.None? then Outcome(Err(ValueError), history)
      else
        var h := history + [GetExample(id, returnDocDetails)];
        match ds.getExample(history, id, returnDocDetails)
        case None => Outcome(Err(Raised), h)
        case Some(ex) =>
          var sample := if returnDetokenized then Detokenized(detokenize(ex.segments, tokenizer.value))
                        else Segments(ex.segments);
          Outcome(Ok(Preview(sample, if returnDocDetails then Some(ex.docDetails) else None)), h)
  }

  // ---------------------------------------------------------------------------
  // validate_injection_location

  /** The attributes an `EditHandler` instance carries: only `manager` (line 19). */
  const HANDLER_ATTRIBUTES: set<string> := {"manager"}

  /** Lines 284-290 as written: the bound is read from
      `self.WriteableMMapIndexedDataset`, an attribute the handler does not
      have, so the lookup raises AttributeError and the `except` turns every
      location into False. `numSamples` is what the manager's dataset would
      report (None when it has none). */
  function ValidateInjectionLocationAsWritten(loc: PyValue, numSamples: Option<nat>): bool {
    if AsIndex(loc).None? then false
    else if "WriteableMMapIndexedDataset" !in HANDLER_ATTRIBUTES then false
    else numSamples.Some? && AsIndex(loc).value < numSamples.value
  }

  /** As written, no location is ever valid. */
  lemma AsWrittenRejectsEverything(loc: PyValue, numSamples: Option<nat>)
    ensures !ValidateInjectionLocationAsWritten(loc, numSamples)
  {
  }

  /** Location 0 of a ten-sample dataset is reported invalid. */
  lemma AsWrittenRejectsFirstSample()
    ensures !ValidateInjectionLocationAsWritten(PyInt(0), Some(10))
    ensures ValidateInjectionLocation(PyInt(0), Some(10))
  {
  }

  /** The evident intent, reading the bound from the manager's dataset: a
      location is valid exactly when it is a non-negative int below the
      dataset's sample count (False when there is no dataset). */
  function ValidateInjectionLocation(loc: PyValue, numSamples: Option<nat>): (valid: bool)
    ensures valid <==> AsIndex(loc).Some? && numSamples.Some? && AsIndex(loc).value < numSamples.value
    ensures loc.PyInt? ==> (valid <==> numSamples.Some? && 0 <= loc.i < numSamples.value)
  {
    match AsIndex(loc)
    case None => false
    case Some(i) => numSamples.Some? && i < numSamples.value
  }
}
