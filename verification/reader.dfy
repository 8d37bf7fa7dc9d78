/** `LakeSoulReader`: creation (a session context with the object stores
    registered), `start` (a plan over the first file, an optional column
    selection and the filters, executed into a buffered stream) and `next_rb`
    (the next item of that stream). The query engine is an `Engine` of
    uninterpreted functions; the stream is the engine's sequence of batch
    results with a cursor. */
module Reader {
  import opened Common
  import opened ReaderConfig
  import opened ObjectStore

  /** The session context: the batch size and the registered object stores. */
  datatype SessionContext = SessionContext(batchSize: nat, objectStores: map<StoreKey, S3Store>)

  /** A decoded batch; only its row count is visible here. */
  datatype RecordBatch = RecordBatch(numRows: nat)

  /** One item of the stream: a batch or the error the engine reports. */
  datatype BatchResult = Batch(batch: RecordBatch) | BatchError(error: Error)

  /** The logical plan `start` builds: a parquet scan, a column selection on
      it, and filters on top. */
  datatype Plan =
    | Scan(path: string)
    | Projection(input: Plan, columns: seq<string>)
    | Filter(input: Plan, condition: Expr)

  /** The query engine, seen from the reader: for each step of building a
      plan, the error it reports, if any; whether executing a plan fails; and
      the batches a plan produces. */
  datatype Engine = Engine(
    readParquetError: (SessionContext, string) -> Option<Error>,
    selectColumnsError: (SessionContext, Plan, seq<string>) -> Option<Error>,
    filterError: (SessionContext, Plan, Expr) -> Option<Error>,
    executeError: (SessionContext, Plan) -> Option<Error>,
    batches: (SessionContext, Plan) -> seq<BatchResult>)

  // ----- Session creation -----

  /** The session `create_session_context` builds: a fresh registry with the
      S3 store registered when the options ask for it. */
  function SessionFor(config: Config): Outcome<SessionContext>
  {
    var decision := S3StoreFor(config);
    match decision
    case Ok(_) => Ok(SessionContext(config.batchSize, Registered(map[], decision)))
    case Err(e) => Err(e)
    case Panic(m) => Panic(m)
  }

  /** Session creation fails only through the S3 options: an error exactly
      when S3 is on and its region or bucket is missing, a panic exactly when
      S3 is on, both are present, and the key, the secret or the endpoint is
      missing. A session that is created holds no store when S3 is off and
      exactly the bucket's store when it is on. */
  lemma SessionFailsOnlyOnS3Options(config: Config)
    ensures SessionFor(config).Err? <==>
      && CheckFsTypeEnabled(config, "s3")
      && (RegionOption !in config.objectStoreOptions || BucketOption !in config.objectStoreOptions)
    ensures SessionFor(config).Panic? <==>
      && CheckFsTypeEnabled(config, "s3")
      && RegionOption in config.objectStoreOptions
      && BucketOption in config.objectStoreOptions
      && (|| AccessKeyOption !in config.objectStoreOptions
          || AccessSecretOption !in config.objectStoreOptions
          || EndpointOption !in config.objectStoreOptions)
    ensures SessionFor(config).Ok? ==>
      && SessionFor(config).value.batchSize == config.batchSize
      && (!CheckFsTypeEnabled(config, "s3") ==> SessionFor(config).value.objectStores == map[])
      && (CheckFsTypeEnabled(config, "s3") ==>
            SessionFor(config).value.objectStores.Keys
              == {StoreKey("s3", config.objectStoreOptions[BucketOption])})
  {
    if CheckFsTypeEnabled(config, "s3") && S3StoreFor(config).Ok? {
      SuccessRegistersOneStore(config, map[]);
    }
  }

  // ----- Building the plan -----

  /** The filters folded onto `df` one by one, first filter innermost,
      stopping at the first one the engine rejects. */
  function FoldFilters(engine: Engine, sess: SessionContext, df: Plan, filters: seq<Expr>): Outcome<Plan>
    decreases |filters|
  {
    if filters == [] then Ok(df)
    else
      match engine.filterError(sess, df, filters[0])
      case Some(e) => Err(e)
      case None => FoldFilters(engine, sess, Filter(df, filters[0]), filters[1..])
  }

  /** `df` with `filters` on top of it, the last filter outermost. */
  function Filtered(df: Plan, filters: seq<Expr>): Plan
    decreases |filters|
  {
    if filters == [] then df else Filter(Filtered(df, filters[..|filters| - 1]), filters[|filters| - 1])
  }

  /** The filters stacked on a plan, innermost first. */
  function FilterChain(p: Plan): seq<Expr>
  {
    if p.Filter? then FilterChain(p.input) + [p.condition] else []
  }

  /** The plan below the filters stacked on `p`. */
  function Unfiltered(p: Plan): Plan
  {
    if p.Filter? then Unfiltered(p.input) else p
  }

  /** Whether the engine accepts filter `i` on `df` with the filters before
      it already applied. */
  predicate Accepts(engine: Engine, sess: SessionContext, df: Plan, filters: seq<Expr>, i: nat)
    requires i < |filters|
  {
    engine.filterError(sess, Filtered(df, filters[..i]), filters[i]).None?
  }

  lemma {:induction false} FilteredCons(df: Plan, f: Expr, filters: seq<Expr>)
    ensures Filtered(Filter(df, f), filters) == Filtered(df, [f] + filters)
    decreases |filters|
  {
    if filters != [] {
      var n := |filters|;
      FilteredCons(df, f, filters[..n - 1]);
      assert ([f] + filters)[..n] == [f] + filters[..n - 1];
    }
  }

  /** Filters are applied in list order: the plan carries them innermost
      first, on top of an unchanged base. */
  lemma {:induction false} FilteredStack(df: Plan, filters: seq<Expr>)
    ensures FilterChain(Filtered(df, filters)) == FilterChain(df) + filters
    ensures Unfiltered(Filtered(df, filters)) == Unfiltered(df)
    decreases |filters|
  {
    if filters != [] {
      var n := |filters|;
      FilteredStack(df, filters[..n - 1]);
      assert filters[..n - 1] + [filters[n - 1]] == filters;
    }
  }

  /** Filter `i + 1` of `[f] + rest` on `df` meets the same plan as filter
      `i` of `rest` on `Filter(df, f)`. */
  lemma AcceptsShift(engine: Engine, sess: SessionContext, df: Plan, f: Expr, rest: seq<Expr>, i: nat)
    requires i < |rest|
    ensures Filtered(Filter(df, f), rest[..i]) == Filtered(df, ([f] + rest)[..i + 1])
    ensures Accepts(engine, sess, Filter(df, f), rest, i) <==> Accepts(engine, sess, df, [f] + rest, i + 1)
  {
    FilteredCons(df, f, rest[..i]);
    assert ([f] + rest)[..i + 1] == [f] + rest[..i];
  }

  /** The fold succeeds exactly when the engine accepts every filter on the
      plan built so far, and then yields all filters on `df` in order. */
  lemma {:induction false} FoldFiltersOk(engine: Engine, sess: SessionContext, df: Plan, filters: seq<Expr>)
    ensures var r := FoldFilters(engine, sess, df, filters);
      && !r.Panic?
      && (r.Ok? <==> forall i :: 0 <= i < |filters| ==> Accepts(engine, sess, df, filters, i))
      && (r.Ok? ==> r.value == Filtered(df, filters))
    decreases |filters|
  {
    if filters != [] {
      var f, rest := filters[0], filters[1..];
      assert filters == [f] + rest;
      assert filters[..0] == [];
      if engine.filterError(sess, df, f).None? {
        FoldFiltersOk(engine, sess, Filter(df, f), rest);
        forall i | 0 <= i < |rest|
          ensures Accepts(engine, sess, Filter(df, f), rest, i) <==> Accepts(engine, sess, df, filters, i + 1)
        {
          AcceptsShift(engine, sess, df, f, rest, i);
        }
        FilteredCons(df, f, rest);
        if forall i :: 0 <= i < |filters| ==> Accepts(engine, sess, df, filters, i) {
          forall i | 0 <= i < |rest| ensures Accepts(engine, sess, Filter(df, f), rest, i) {
            assert Accepts(engine, sess, df, filters, i + 1);
          }
        } else {
          var i :| 0 <= i < |filters| && !Accepts(engine, sess, df, filters, i);
          assert !Accepts(engine, sess, Filter(df, f), rest, i - 1);
        }
      } else {
        assert !Accepts(engine, sess, df, filters, 0);
      }
    }
  }

  /** When the fold fails, it reports the error of the first filter the
      engine rejects. */
  lemma {:induction false} FoldFiltersErr(engine: Engine, sess: SessionContext, df: Plan, filters: seq<Expr>)
    ensures var r := FoldFilters(engine, sess, df, filters);
      r.Err? ==> exists i :: (0 <= i < |filters|
        && engine.filterError(sess, Filtered(df, filters[..i]), filters[i]) == Some(r.error)
        && forall j :: 0 <= j < i ==> Accepts(engine, sess, df, filters, j))
    decreases |filters|
  {
    var r := FoldFilters(engine, sess, df, filters);
    if filters != [] && r.Err? {
      var f, rest := filters[0], filters[1..];
      assert filters == [f] + rest;
      assert filters[..0] == [];
      if engine.filterError(sess, df, f).None? {
        FoldFiltersErr(engine, sess, Filter(df, f), rest);
        var i :| 0 <= i < |rest|
          && engine.filterError(sess, Filtered(Filter(df, f), rest[..i]), rest[i]) == Some(r.error)
          && forall j :: 0 <= j < i ==> Accepts(engine, sess, Filter(df, f), rest, j);
        AcceptsShift(engine, sess, df, f, rest, i);
        forall j | 0 <= j < i + 1 ensures Accepts(engine, sess, df, filters, j) {
          if j > 0 {
            AcceptsShift(engine, sess, df, f, rest, j - 1);
          }
        }
        assert engine.filterError(sess, Filtered(df, filters[..i + 1]), filters[i + 1]) == Some(r.error);
      }
    }
  }

  /** The plan `start` builds from a configuration: a scan of the first file,
      a selection of `columns` when that list is not empty, then the filters
      in list order; or the first error the engine reports on the way; or a
      panic when there is no file. */
  function BuildPlan(engine: Engine, sess: SessionContext, config: Config): Outcome<Plan>
  {
    if |config.files| == 0 then Panic(IndexOutOfBounds)
    else
      var file := config.files[0];
      match engine.readParquetError(sess, file)
      case Some(e) => Err(e)
      case None =>
        if |config.columns| != 0 && engine.selectColumnsError(sess, Scan(file), config.columns).Some? then
          Err(engine.selectColumnsError(sess, Scan(file), config.columns).value)
        else
          var df := if |config.columns| == 0 then Scan(file) else Projection(Scan(file), config.columns);
          FoldFilters(engine, sess, df, config.filters)
  }

  /** The outcome of `start`: the engine's batch results for the plan, or the
      error or panic met while building or executing it. */
  function StartOutcome(engine: Engine, sess: SessionContext, config: Config): Outcome<seq<BatchResult>>
  {
    match BuildPlan(engine, sess, config)
    case Ok(plan) =>
      (match engine.executeError(sess, plan)
       case Some(e) => Err(e)
       case None => Ok(engine.batches(sess, plan)))
    case Err(e) => Err(e)
    case Panic(m) => Panic(m)
  }

  /** The base of a built plan: a scan of the first file, wrapped in a
      selection exactly when `columns` is not empty. */
  function BaseOf(config: Config): Plan
    requires |config.files| > 0
  {
    if |config.columns| == 0 then Scan(config.files[0]) else Projection(Scan(config.files[0]), config.columns)
  }

  /** A built plan reads only the first file, selects the columns only when
      there are some, and carries the filters in list order; with no files,
      building the plan panics. */
  lemma PlanShape(engine: Engine, sess: SessionContext, config: Config)
    ensures |config.files| == 0 ==> BuildPlan(engine, sess, config) == Panic(IndexOutOfBounds)
    ensures BuildPlan(engine, sess, config).Ok? ==>
      var plan := BuildPlan(engine, sess, config).value;
      && |config.files| > 0
      && Unfiltered(plan) == BaseOf(config)
      && FilterChain(plan) == config.filters
  {
    if |config.files| > 0 && BuildPlan(engine, sess, config).Ok? {
      var df := BaseOf(config);
      FoldFiltersOk(engine, sess, df, config.filters);
      FilteredStack(df, config.filters);
    }
  }

  /** The plan is built exactly when the engine accepts the scan, the
      selection (when there is one) and every filter. */
  lemma PlanBuiltIff(engine: Engine, sess: SessionContext, config: Config)
    requires |config.files| > 0
    ensures BuildPlan(engine, sess, config).Ok? <==>
      && engine.readParquetError(sess, config.files[0]).None?
      && (|config.columns| != 0 ==> engine.selectColumnsError(sess, Scan(config.files[0]), config.columns).None?)
      && forall i :: 0 <= i < |config.filters| ==> Accepts(engine, sess, BaseOf(config), config.filters, i)
  {
    FoldFiltersOk(engine, sess, BaseOf(config), config.filters);
  }

  /** Files after the first one play no part in `start`. */
  lemma StartReadsOnlyFirstFile(engine: Engine, sess: SessionContext, c: Config, rest: seq<string>)
    requires |c.files| > 0
    ensures StartOutcome(engine, sess, c) == StartOutcome(engine, sess, c.(files := [c.files[0]] + rest))
  {
  }

  // ----- The stream -----

  /** The buffered stream: the engine's batch results in order, and how many
      have been handed out. Buffering computes items ahead of time but keeps
      their order. */
  datatype Stream = Stream(items: seq<BatchResult>, cursor: nat)

  /** The reader's stream slot: never written, or holding a stream. */
  datatype StreamSlot = Uninit | Init(stream: Stream)

  /** What `next_rb` gives: the next item, the end of the stream, or (before
      `start`) a read of the uninitialised slot, which is undefined. */
  datatype NextItem = Item(result: BatchResult) | Done | UndefinedBehaviour

  /** One `next_rb` on a slot: the slot afterwards and what is returned. */
  function Pull(slot: StreamSlot): (StreamSlot, NextItem)
  {
    match slot
    case Uninit => (Uninit, UndefinedBehaviour)
    case Init(s) =>
      if s.cursor < |s.items| then (Init(s.(cursor := s.cursor + 1)), Item(s.items[s.cursor]))
      else (slot, Done)
  }

  /** `n` successive `next_rb` calls. */
  function PullMany(slot: StreamSlot, n: nat): (StreamSlot, seq<NextItem>)
    decreases n
  {
    if n == 0 then (slot, [])
    else
      var (next, item) := Pull(slot);
      var (last, items) := PullMany(next, n - 1);
      (last, [item] + items)
  }

  function Min(a: nat, b: nat): nat { if a <= b then a else b }

  /** Pulls hand out the stream's items one at a time, in order, and then
      end-of-stream on every further pull. */
  lemma {:induction false} PullsInOrder(items: seq<BatchResult>, cursor: nat, n: nat)
    requires cursor <= |items|
    ensures PullMany(Init(Stream(items, cursor)), n).0 == Init(Stream(items, Min(cursor + n, |items|)))
    ensures |PullMany(Init(Stream(items, cursor)), n).1| == n
    ensures forall i :: 0 <= i < n ==> (PullMany(Init(Stream(items, cursor)), n).1[i] ==
      if cursor + i < |items| then Item(items[cursor + i]) else Done)
    decreases n
  {
    if n > 0 {
      var next := if cursor < |items| then cursor + 1 else cursor;
      PullsInOrder(items, next, n - 1);
      var rs := PullMany(Init(Stream(items, next)), n - 1).1;
      var all := PullMany(Init(Stream(items, cursor)), n).1;
      assert all == [Pull(Init(Stream(items, cursor))).1] + rs;
      forall i | 0 <= i < n
        ensures all[i] == if cursor + i < |items| then Item(items[cursor + i]) else Done
      {
        if i > 0 {
          assert all[i] == rs[i - 1];
        }
      }
    }
  }

  /** Before `start`, every pull reads the uninitialised slot and nothing
      changes. */
  lemma {:induction false} PullsBeforeStart(n: nat)
    ensures PullMany(Uninit, n).0 == Uninit
    ensures |PullMany(Uninit, n).1| == n
    ensures forall i :: 0 <= i < n ==> PullMany(Uninit, n).1[i] == UndefinedBehaviour
    decreases n
  {
    if n > 0 {
      PullsBeforeStart(n - 1);
      var rs := PullMany(Uninit, n - 1).1;
      assert PullMany(Uninit, n).1 == [UndefinedBehaviour] + rs;
    }
  }

  // ----- The reader -----

  class LakeSoulReader {
    const sessCtx: SessionContext
    const config: Config
    var stream: StreamSlot
    /** Streams overwritten by a later `start`: the slot does not drop what
        it held, so these are never released. */
    ghost var leaked: seq<Stream>

    ghost predicate Valid()
      reads this
    {
      stream.Init? ==> stream.stream.cursor <= |stream.stream.items|
    }

    constructor (sessCtx: SessionContext, config: Config)
      ensures Valid()
      ensures this.sessCtx == sessCtx && this.config == config
      ensures stream == Uninit && leaked == []
    {
      this.sessCtx := sessCtx;
      this.config := config;
      stream := Uninit;
      leaked := [];
    }

    /** `create_session_context`: a fresh runtime, the S3 store registered in
        it when the options ask for it, and the batch size. */
    static method CreateSessionContext(config: Config) returns (r: Outcome<SessionContext>)
      ensures r == SessionFor(config)
    {
      var runtime := new RuntimeEnv();
      var registered := RegisterS3ObjectStore(config, runtime);
      match registered
      case Err(e) => r := Err(e);
      case Panic(m) => r := Panic(m);
      case Ok(_) => r := Ok(SessionContext(config.batchSize, runtime.objectStores));
    }

    /** `LakeSoulReader::new`: fails exactly when session creation fails; a
        new reader holds no stream. */
    static method New(config: Config) returns (r: Outcome<LakeSoulReader>)
      ensures r.Ok? <==> SessionFor(config).Ok?
      ensures r.Err? ==> SessionFor(config).Err? && r.error == SessionFor(config).error
      ensures r.Panic? ==> SessionFor(config).Panic?
      ensures r.Ok? ==>
        && fresh(r.value) && r.value.Valid()
        && r.value.sessCtx == SessionFor(config).value && r.value.config == config
        && r.value.stream == Uninit && r.value.leaked == []
    {
      var sess := CreateSessionContext(config);
      match sess
      case Err(e) => r := Err(e);
      case Panic(m) => r := Panic(m);
      case Ok(s) =>
        var reader := new LakeSoulReader(s, config);
        r := Ok(reader);
    }

    /** `start`: builds the plan step by step, executes it and installs the
        stream, overwriting (and leaking) any stream already there. On an
        error or a panic the slot is left as it was. */
    method Start(engine: Engine) returns (r: Outcome<()>)
      requires Valid()
      modifies this
      ensures Valid()
      ensures r == StartOutcome(engine, sessCtx, config).Unit()
      ensures StartOutcome(engine, sessCtx, config).Ok? ==>
        && stream == Init(Stream(StartOutcome(engine, sessCtx, config).value, 0))
        && leaked == old(leaked) + (if old(stream).Init? then [old(stream).stream] else [])
      ensures !StartOutcome(engine, sessCtx, config).Ok? ==>
        stream == old(stream) && leaked == old(leaked)
    {
      if |config.files| == 0 {
        return Panic(IndexOutOfBounds);
      }
      var file := config.files[0];
      var readError := engine.readParquetError(sessCtx, file);
      if readError.Some? {
        return Err(readError.value);
      }
      var df := Scan(file);
      if |config.columns| != 0 {
        var selectError := engine.selectColumnsError(sessCtx, df, config.columns);
        if selectError.Some? {
          return Err(selectError.value);
        }
        df := Projection(df, config.columns);
      }
      var folded := FoldFilters(engine, sessCtx, df, config.filters);
      match folded {
        case Err(e) => return Err(e);
        case Panic(m) => return Panic(m);
        case Ok(p) => df := p;
      }
      var executeError := engine.executeError(sessCtx, df);
      if executeError.Some? {
        return Err(executeError.value);
      }
      if stream.Init? {
        leaked := leaked + [stream.stream];
      }
      stream := Init(Stream(engine.batches(sessCtx, df), 0));
      r := Ok(());
    }

    /** `next_rb`: the next item of the stream, or end-of-stream; before
        `start`, a read of the uninitialised slot. */
    method NextRb() returns (r: NextItem)
      requires Valid()
      modifies this
      ensures Valid() && leaked == old(leaked)
      ensures (stream, r) == Pull(old(stream))
    {
      match stream
      case Uninit =>
        r := UndefinedBehaviour;
      case Init(s) =>
        if s.cursor < |s.items| {
          r := Item(s.items[s.cursor]);
          stream := Init(s.(cursor := s.cursor + 1));
        } else {
          r := Done;
        }
    }
  }

  // ----- Draining a reader -----

  /** The row count of a stream's items as the tests sum it: each item is
      unwrapped, so an error item panics. */
  function RowCount(items: seq<BatchResult>): Outcome<nat>
    decreases |items|
  {
    if items == [] then Ok(0)
    else
      match items[0]
      case BatchError(_) => Panic(UnwrapFailed)
      case Batch(b) =>
        match RowCount(items[1..])
        case Ok(n) => Ok(b.numRows + n)
        case other => other
  }

  /** `total` rows counted so far, then the outcome of the rest. */
  function AddRows(total: nat, rest: Outcome<nat>): Outcome<nat>
  {
    if rest.Ok? then Ok(total + rest.value) else rest
  }

  /** Counting from position `k` is the item at `k` followed by the rest. */
  lemma RowCountAt(items: seq<BatchResult>, k: nat)
    requires k < |items|
    ensures items[k].BatchError? ==> RowCount(items[k..]) == Panic(UnwrapFailed)
    ensures items[k].Batch? ==>
      RowCount(items[k..]) == AddRows(items[k].batch.numRows, RowCount(items[k + 1..]))
  {
    assert items[k..][1..] == items[k + 1..];
  }

  /** The test helper's loop: pull until end-of-stream, summing the rows of
      each unwrapped batch. It counts exactly the items the stream has left,
      in order, and leaves the stream exhausted. */
  method CountRows(reader: LakeSoulReader) returns (r: Outcome<nat>)
    requires reader.Valid() && reader.stream.Init?
    modifies reader
    ensures r == RowCount(old(reader.stream.stream.items)[old(reader.stream.stream.cursor)..])
    ensures r.Ok? ==> reader.stream == Init(Stream(old(reader.stream.stream.items), |old(reader.stream.stream.items)|))
    ensures reader.leaked == old(reader.leaked)
  {
    ghost var items := reader.stream.stream.items;
    ghost var start := reader.stream.stream.cursor;
    var total: nat := 0;
    while true
      invariant reader.Valid() && reader.stream.Init? && reader.stream.stream.items == items
      invariant reader.leaked == old(reader.leaked)
      invariant start <= reader.stream.stream.cursor <= |items|
      invariant RowCount(items[start..]) == AddRows(total, RowCount(items[reader.stream.stream.cursor..]))
      decreases |items| - reader.stream.stream.cursor
    {
      ghost var k := reader.stream.stream.cursor;
      var next := reader.NextRb();
      if !next.Item? {
        assert items[k..] == [];
        return Ok(total);
      }
      RowCountAt(items, k);
      match next.result {
        case BatchError(_) =>
          return Panic(UnwrapFailed);
        case Batch(b) =>
          total := total + b.numRows;
      }
    }
  }
}
