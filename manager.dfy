/** `DatasetManager` (tokensmith/manager.py): the handler slots, set once
    each by `setup_search` and `setup_edit_inspect_sample_export`.

    Each handler only keeps a reference back to the manager, so a handler is
    represented by its kind; the search handler by the arguments it was built
    from; the writeable dataset by a handle that the caller supplies, because
    its constructor is outside the model. */
module Manager {
  import opened Common

  datatype HandlerKind = EditKind | InspectKind | SampleKind | ExportKind

  datatype Handler = Handler(kind: HandlerKind)

  /** The arguments of `SearchHandler(...)`. */
  datatype SearchConfig = SearchConfig(binFilePath: string, indexSavePath: string, vocab: int,
                                       verbose: bool, reuse: bool)

  datatype SearchHandler = SearchHandler(config: SearchConfig)

  /** A `WriteableMMapIndexedDataset` instance; `instance` tells apart two
      constructions from the same arguments. */
  datatype DatasetHandle = DatasetHandle(datasetPrefix: string, batchInfoSavePrefix: string, trainIters: int,
                                         trainBatchSize: int, trainSeqLen: int, seed: int,
                                         splitsString: string, packingImpl: string, allowChopped: bool,
                                         addExtraTokenToSeq: int, instance: nat)

  /** The manager's fields. `dataset` is None while the attribute
      `WriteableMMapIndexedDataset` does not exist yet. */
  datatype ManagerState = ManagerState(edit: Option<Handler>, inspect: Option<Handler>, sample: Option<Handler>,
                                       exporter: Option<Handler>, search: Option<SearchHandler>,
                                       dataset: Option<DatasetHandle>)

  /** What a setup call returns (None, or the exception it raises) and the
      fields afterwards. */
  datatype Transition = Transition(result: Result<()>, state: ManagerState)

  /** `__init__`, lines 11-19. */
  function Fresh(): ManagerState {
    ManagerState(None, None, None, None, None, None)
  }

  /** The four handler slots in the order their guards run. */
  function Slots(s: ManagerState): (slots: seq<Option<Handler>>)
    ensures |slots| == 4
  {
    [s.edit, s.inspect, s.sample, s.exporter]
  }

  function KindAt(k: nat): HandlerKind
    requires k < 4
  {
    [EditKind, InspectKind, SampleKind, ExportKind][k]
  }

  /** The position of the first slot already set (4 when none is). */
  function FirstTaken(s: ManagerState): (k: nat)
    ensures k <= 4
    ensures forall j :: 0 <= j < k ==> Slots(s)[j].None?
    ensures k < 4 ==> Slots(s)[k].Some?
  {
    if s.edit.Some? then 0 else if s.inspect.Some? then 1 else if s.sample.Some? then 2
    else if s.exporter.Some? then 3 else 4
  }

  // ---------------------------------------------------------------------------
  // setup_search

  /** `SearchHandler.__init__` (tokensmith/search/handler.py:17-28): the vocab
      must be 2**16 or 2**32, and reusing needs an existing index path. */
  function NewSearchHandler(config: SearchConfig, indexPathExists: bool): (r: Result<SearchHandler>)
    ensures r.Ok? <==> (config.vocab == 0x1_0000 || config.vocab == 0x1_0000_0000)
                       && (config.reuse ==> indexPathExists)
    ensures r.Err? ==> r.error == ValueError
    ensures r.Ok? ==> r.value.config == config
  {
    if config.vocab != 0x1_0000 && config.vocab != 0x1_0000_0000 then Err(ValueError)
    else if config.reuse && !indexPathExists then Err(ValueError)
    else Ok(SearchHandler(config))
  }

  /** Lines 43-56: the handler is built only into an empty slot, no other
      field is touched, and a failed call (a second call, or a failing
      constructor) changes nothing. */
  function SetupSearchStep(s: ManagerState, config: SearchConfig, indexPathExists: bool): (t: Transition)
    ensures t.state.(search := s.search) == s
    ensures t.result.Err? ==> t.state == s && t.result.error == ValueError
    ensures t.result.Ok? <==> s.search.None? && NewSearchHandler(config, indexPathExists).Ok?
    ensures t.result.Ok? ==> t.state.search == Some(SearchHandler(config))
  {
    if s.search.None? then
      match NewSearchHandler(config, indexPathExists)
      case Err(e) => Transition(Err(e), s)
      case Ok(h) => Transition(Ok(()), s.(search := Some(h)))
    else Transition(Err(ValueError), s)
  }

  // ---------------------------------------------------------------------------
  // setup_edit_inspect_sample_export

  /** Lines 102-120: the four guards, in order, on the fields after the
      dataset has been assigned. */
  function CreateHandlers(s: ManagerState): Transition {
    if s.edit.Some? then Transition(Err(ValueError), s) else
    var s1 := s.(edit := Some(Handler(EditKind)));
    if s1.inspect.Some? then Transition(Err(ValueError), s1) else
    var s2 := s1.(inspect := Some(Handler(InspectKind)));
    if s2.sample.Some? then Transition(Err(ValueError), s2) else
    var s3 := s2.(sample := Some(Handler(SampleKind)));
    if s3.exporter.Some? then Transition(Err(ValueError), s3) else
    Transition(Ok(()), s3.(exporter := Some(Handler(ExportKind))))
  }

  /** Lines 89-120: `built` is the outcome of the `WriteableMMapIndexedDataset`
      constructor, whose failure propagates before any field changes. */
  function SetupHandlersStep(s: ManagerState, built: Result<DatasetHandle>): Transition {
    match built
    case Err(e) => Transition(Err(e), s)
    case Ok(d) => CreateHandlers(s.(dataset := Some(d)))
  }

  /** The guard order made explicit: every empty slot before the first set
      one is filled, that slot and the later ones are left as they were, and
      the call succeeds exactly when no slot was set. */
  lemma {:induction false} SetupFillsUpToFirstTaken(s: ManagerState, d: DatasetHandle)
    ensures var t := SetupHandlersStep(s, Ok(d));
            && (t.result.Ok? <==> FirstTaken(s) == 4)
            && (t.result.Err? ==> t.result.error == ValueError)
            && t.state.dataset == Some(d) && t.state.search == s.search
            && forall k :: 0 <= k < 4 ==>
                 Slots(t.state)[k] == if k < FirstTaken(s) then Some(Handler(KindAt(k))) else Slots(s)[k]
  {
    var t := SetupHandlersStep(s, Ok(d));
    var s0 := s.(dataset := Some(d));
    assert Slots(s0) == Slots(s) && FirstTaken(s0) == FirstTaken(s);
    assert t == CreateHandlers(s0);
  }

  /** On a fresh manager the setup fills all four slots. */
  lemma FreshSetupFillsAll(d: DatasetHandle)
    ensures var t := SetupHandlersStep(Fresh(), Ok(d));
            && t.result.Ok?
            && t.state == ManagerState(Some(Handler(EditKind)), Some(Handler(InspectKind)),
                                       Some(Handler(SampleKind)), Some(Handler(ExportKind)), None, Some(d))
  {
  }

  /** A second setup raises ValueError, yet the dataset has already been
      replaced by the new one, under the handlers built for the old one:
      "nothing changes on error" does not hold. */
  lemma {:induction false} SecondSetupReplacesDataset(d1: DatasetHandle, d2: DatasetHandle)
    ensures var first := SetupHandlersStep(Fresh(), Ok(d1));
            var second := SetupHandlersStep(first.state, Ok(d2));
            && second.result == Err(ValueError)
            && second.state == first.state.(dataset := Some(d2))
            && (d1 != d2 ==> second.state != first.state)
  {
    FreshSetupFillsAll(d1);
  }

  /** The two setups work on disjoint fields, so their order does not matter
      when both succeed. */
  lemma {:induction false} SetupsCommute(s: ManagerState, config: SearchConfig, indexPathExists: bool, d: DatasetHandle)
    requires SetupSearchStep(s, config, indexPathExists).result.Ok?
    requires SetupHandlersStep(s, Ok(d)).result.Ok?
    ensures var a := SetupHandlersStep(SetupSearchStep(s, config, indexPathExists).state, Ok(d));
            var b := SetupSearchStep(SetupHandlersStep(s, Ok(d)).state, config, indexPathExists);
            a.result.Ok? && b.result.Ok? && a.state == b.state
  {
    SetupFillsUpToFirstTaken(s, d);
    var s1 := SetupSearchStep(s, config, indexPathExists).state;
    assert Slots(s1) == Slots(s);
    SetupFillsUpToFirstTaken(s1, d);
  }

  // ---------------------------------------------------------------------------
  // The manager object

  class DatasetManager {
    var edit: Option<Handler>
    var inspect: Option<Handler>
    var sample: Option<Handler>
    var exporter: Option<Handler>
    var search: Option<SearchHandler>
    var dataset: Option<DatasetHandle>

    function State(): ManagerState
      reads this
    {
      ManagerState(edit, inspect, sample, exporter, search, dataset)
    }

    /** Lines 11-19: every slot empty, no dataset attribute yet. */
    constructor()
      ensures State() == Fresh()
    {
      edit, inspect, sample, exporter := None, None, None, None;
      search := None;
      dataset := None;
    }

    /** Lines 21-56. */
    method SetupSearch(config: SearchConfig, indexPathExists: bool) returns (r: Result<()>)
      modifies this
      ensures Transition(r, State()) == SetupSearchStep(old(State()), config, indexPathExists)
    {
      if search.None? {
        var h := NewSearchHandler(config, indexPathExists);
        if h.Err? {
          return Err(h.error);
        }
        search := Some(h.value);
        r := Ok(());
      } else {
        r := Err(ValueError);
      }
    }

    /** Lines 58-120, with the dataset constructor's outcome given as `built`. */
    method SetupEditInspectSampleExport(built: Result<DatasetHandle>) returns (r: Result<()>)
      modifies this
      ensures Transition(r, State()) == SetupHandlersStep(old(State()), built)
    {
      if built.Err? {
        return Err(built.error);
      }
      dataset := Some(built.value);
      if edit.None? {
        edit := Some(Handler(EditKind));
      } else {
        return Err(ValueError);
      }
      if inspect.None? {
        inspect := Some(Handler(InspectKind));
      } else {
        return Err(ValueError);
      }
      if sample.None? {
        sample := Some(Handler(SampleKind));
      } else {
        return Err(ValueError);
      }
      if exporter.None? {
        exporter := Some(Handler(ExportKind));
      } else {
        return Err(ValueError);
      }
      r := Ok(());
    }
  }
}
