/** The read configuration of the LakeSoul native reader and the builder that
    assembles it one call at a time. Each builder call either appends to one
    list of the configuration, replaces a whole list, puts one entry into a
    map, or sets one number; nothing else changes. */
module ReaderConfig {
  import opened Common

  /** A delta file taking part in merge-on-read. The reader stores these and
      never reads them, so only the file name is kept. */
  datatype MergePartitionedFile = MergePartitionedFile(filename: string)

  /** A filter predicate, as the filter parser or a caller builds it. Its tree
      is not inspected by the reader, so it is kept as an uninterpreted text. */
  datatype Expr = Expr(tree: string)

  /** The filter parser: from a filter text and the declared column types to
      a predicate. It belongs to another part of the repository. */
  type Parser = (string, map<string, string>) -> Expr

  datatype Config = Config(
    files: seq<string>,
    mergeFiles: seq<MergePartitionedFile>,
    primaryKeys: seq<string>,
    columns: seq<string>,
    schema: map<string, string>,
    filters: seq<Expr>,
    batchSize: nat,
    objectStoreOptions: map<string, string>,
    threadNum: nat,
    bufferSize: nat)

  /** The configuration a new builder starts from: every list and map empty
      and a batch size of 0. The default thread count and buffer size are
      parameters, because the two derive attributes of the record disagree on
      them. */
  function DefaultConfig(threadNum: nat, bufferSize: nat): Config
  {
    Config([], [], [], [], map[], [], 0, map[], threadNum, bufferSize)
  }

  /** One call of the builder, with its argument. */
  datatype Call =
    | WithFile(file: string)
    | WithFiles(newFiles: seq<string>)
    | WithMergeFile(mergeFile: MergePartitionedFile)
    | WithMergeFiles(newMergeFiles: seq<MergePartitionedFile>)
    | WithPrimaryKeys(pks: seq<string>)
    | WithColumn(col: string, dataType: string)
    | WithBatchSize(newBatchSize: nat)
    | WithBufferSize(newBufferSize: nat)
    | WithColumns(cols: seq<string>)
    | WithFilterStr(filterStr: string)
    | WithFilters(newFilters: seq<Expr>)
    | WithObjectStoreOption(key: string, optionValue: string)
    | WithThreadNum(newThreadNum: nat)

  /** The configuration after one builder call. */
  function Apply(c: Config, call: Call, parse: Parser): Config
  {
    match call
    case WithFile(f) => c.(files := c.files + [f])
    case WithFiles(fs) => c.(files := fs)
    case WithMergeFile(m) => c.(mergeFiles := c.mergeFiles + [m])
    case WithMergeFiles(ms) => c.(mergeFiles := ms)
    case WithPrimaryKeys(pks) => c.(primaryKeys := pks)
    case WithColumn(col, t) => c.(columns := c.columns + [col], schema := c.schema[col := t])
    case WithBatchSize(n) => c.(batchSize := n)
    case WithBufferSize(n) => c.(bufferSize := n)
    case WithColumns(cols) => c.(columns := cols)
    case WithFilterStr(s) => c.(filters := c.filters + [parse(s, c.schema)])
    case WithFilters(fs) => c.(filters := fs)
    case WithObjectStoreOption(k, v) => c.(objectStoreOptions := c.objectStoreOptions[k := v])
    case WithThreadNum(n) => c.(threadNum := n)
  }

  /** The configuration after a chain of builder calls, first call first. */
  function ApplyAll(c: Config, calls: seq<Call>, parse: Parser): Config
    decreases |calls|
  {
    if calls == [] then c else ApplyAll(Apply(c, calls[0], parse), calls[1..], parse)
  }

  lemma {:induction false} ApplyAllSnoc(c: Config, calls: seq<Call>, call: Call, parse: Parser)
    ensures ApplyAll(c, calls + [call], parse) == Apply(ApplyAll(c, calls, parse), call, parse)
    decreases |calls|
  {
    if calls == [] {
      assert [] + [call] == [call];
    } else {
      assert (calls + [call])[1..] == calls[1..] + [call];
      ApplyAllSnoc(Apply(c, calls[0], parse), calls[1..], call, parse);
    }
  }

  // ----- Which fields a call changes -----

  datatype Field =
    | Files | MergeFiles | PrimaryKeys | Columns | Schema | Filters
    | BatchSize | BufferSize | ObjectStoreOptions | ThreadNum

  /** The fields a builder call names. */
  function Touches(call: Call): set<Field>
  {
    match call
    case WithFile(_) => {Files}
    case WithFiles(_) => {Files}
    case WithMergeFile(_) => {MergeFiles}
    case WithMergeFiles(_) => {MergeFiles}
    case WithPrimaryKeys(_) => {PrimaryKeys}
    case WithColumn(_, _) => {Columns, Schema}
    case WithBatchSize(_) => {BatchSize}
    case WithBufferSize(_) => {BufferSize}
    case WithColumns(_) => {Columns}
    case WithFilterStr(_) => {Filters}
    case WithFilters(_) => {Filters}
    case WithObjectStoreOption(_, _) => {ObjectStoreOptions}
    case WithThreadNum(_) => {ThreadNum}
  }

  /** The fields any call of a chain names. */
  function TouchedBy(calls: seq<Call>): set<Field>
    decreases |calls|
  {
    if calls == [] then {} else Touches(calls[0]) + TouchedBy(calls[1..])
  }

  /** `c` and `d` agree on every field outside `fields`. */
  predicate AgreeOutside(c: Config, d: Config, fields: set<Field>)
  {
    && (Files !in fields ==> d.files == c.files)
    && (MergeFiles !in fields ==> d.mergeFiles == c.mergeFiles)
    && (PrimaryKeys !in fields ==> d.primaryKeys == c.primaryKeys)
    && (Columns !in fields ==> d.columns == c.columns)
    && (Schema !in fields ==> d.schema == c.schema)
    && (Filters !in fields ==> d.filters == c.filters)
    && (BatchSize !in fields ==> d.batchSize == c.batchSize)
    && (BufferSize !in fields ==> d.bufferSize == c.bufferSize)
    && (ObjectStoreOptions !in fields ==> d.objectStoreOptions == c.objectStoreOptions)
    && (ThreadNum !in fields ==> d.threadNum == c.threadNum)
  }

  /** A builder call changes only the fields it names. */
  lemma ApplyChangesOnlyTouched(c: Config, call: Call, parse: Parser)
    ensures AgreeOutside(c, Apply(c, call, parse), Touches(call))
  {
  }

  /** A chain of builder calls changes only the fields some call of it names. */
  lemma {:induction false} ApplyAllChangesOnlyTouched(c: Config, calls: seq<Call>, parse: Parser)
    ensures AgreeOutside(c, ApplyAll(c, calls, parse), TouchedBy(calls))
    decreases |calls|
  {
    if calls != [] {
      ApplyChangesOnlyTouched(c, calls[0], parse);
      ApplyAllChangesOnlyTouched(Apply(c, calls[0], parse), calls[1..], parse);
    }
  }

  // ----- List fields: appended since the last replacement -----

  /** What a builder call does to one list field. */
  datatype ListOp<T> = Keep | Push(item: T) | Replace(items: seq<T>)

  function Step<T>(l: seq<T>, op: ListOp<T>): seq<T>
  {
    match op
    case Keep => l
    case Push(x) => l + [x]
    case Replace(xs) => xs
  }

  function Fold<T>(l: seq<T>, ops: seq<ListOp<T>>): seq<T>
    decreases |ops|
  {
    if ops == [] then l else Fold(Step(l, ops[0]), ops[1..])
  }

  /** The items of the `Push` operations of `ops`, in order. */
  function Pushed<T>(ops: seq<ListOp<T>>): seq<T>
    decreases |ops|
  {
    if ops == [] then []
    else (if ops[0].Push? then [ops[0].item] else []) + Pushed(ops[1..])
  }

  lemma {:induction false} FoldSnoc<T>(l: seq<T>, ops: seq<ListOp<T>>, op: ListOp<T>)
    ensures Fold(l, ops + [op]) == Step(Fold(l, ops), op)
    decreases |ops|
  {
    if ops == [] {
      assert [] + [op] == [op];
    } else {
      assert (ops + [op])[1..] == ops[1..] + [op];
      FoldSnoc(Step(l, ops[0]), ops[1..], op);
    }
  }

  lemma {:induction false} FoldSplit<T>(l: seq<T>, ops: seq<ListOp<T>>, k: nat)
    requires k <= |ops|
    ensures Fold(l, ops) == Fold(Fold(l, ops[..k]), ops[k..])
    decreases k
  {
    if k > 0 {
      FoldSplit(Step(l, ops[0]), ops[1..], k - 1);
      assert ops[1..][..k - 1] == ops[..k][1..];
      assert ops[1..][k - 1..] == ops[k..];
    } else {
      assert ops[..0] == [];
      assert ops[0..] == ops;
    }
  }

  /** With no replacement among `ops`, the list keeps its items in order and
      gains the pushed items at the end, in order. */
  lemma {:induction false} FoldWithoutReplace<T>(l: seq<T>, ops: seq<ListOp<T>>)
    requires forall i :: 0 <= i < |ops| ==> !ops[i].Replace?
    ensures Fold(l, ops) == l + Pushed(ops)
    decreases |ops|
  {
    if ops != [] {
      FoldWithoutReplace(Step(l, ops[0]), ops[1..]);
      if ops[0].Push? {
        assert Step(l, ops[0]) + Pushed(ops[1..]) == l + ([ops[0].item] + Pushed(ops[1..]));
      } else {
        assert [] + Pushed(ops[1..]) == Pushed(ops[1..]);
      }
    }
  }

  /** After the last replacement at `k`, the list is the replacing list
      followed by the items pushed since, in order. */
  lemma FoldAfterReplace<T>(l: seq<T>, ops: seq<ListOp<T>>, k: nat)
    requires k < |ops| && ops[k].Replace?
    requires forall i :: k < i < |ops| ==> !ops[i].Replace?
    ensures Fold(l, ops) == ops[k].items + Pushed(ops[k + 1..])
  {
    FoldSplit(l, ops, k + 1);
    assert ops[..k + 1] == ops[..k] + [ops[k]];
    FoldSnoc(l, ops[..k], ops[k]);
    FoldWithoutReplace(ops[k].items, ops[k + 1..]);
  }

  /** What each call of a chain does to one field, call by call: the list
      operations on a list field, or the entries put into a map field. */
  function Each<U>(calls: seq<Call>, f: Call -> U): (effects: seq<U>)
    ensures |effects| == |calls|
    ensures forall i :: 0 <= i < |calls| ==> effects[i] == f(calls[i])
  {
    seq(|calls|, i requires 0 <= i < |calls| => f(calls[i]))
  }

  /** If every call acts on a list field as `op` says, the field after a chain
      of calls is the fold of the chain's operations. */
  lemma {:induction false} ListFieldFollowsOps<T>(
    c: Config, calls: seq<Call>, parse: Parser, field: Config -> seq<T>, op: Call -> ListOp<T>)
    requires forall d: Config, call: Call :: field(Apply(d, call, parse)) == Step(field(d), op(call))
    ensures field(ApplyAll(c, calls, parse)) == Fold(field(c), Each(calls, op))
    decreases |calls|
  {
    if calls != [] {
      ListFieldFollowsOps(Apply(c, calls[0], parse), calls[1..], parse, field, op);
      assert Each(calls, op)[1..] == Each(calls[1..], op);
    }
  }

  function FileOp(call: Call): ListOp<string>
  {
    match call
    case WithFile(f) => Push(f)
    case WithFiles(fs) => Replace(fs)
    case _ => Keep
  }

  function MergeFileOp(call: Call): ListOp<MergePartitionedFile>
  {
    match call
    case WithMergeFile(m) => Push(m)
    case WithMergeFiles(ms) => Replace(ms)
    case _ => Keep
  }

  function ColumnOp(call: Call): ListOp<string>
  {
    match call
    case WithColumn(col, _) => Push(col)
    case WithColumns(cols) => Replace(cols)
    case _ => Keep
  }

  lemma FilesFollowFileOps(c: Config, calls: seq<Call>, parse: Parser)
    ensures ApplyAll(c, calls, parse).files == Fold(c.files, Each(calls, FileOp))
  {
    var field := (d: Config) => d.files;
    forall d: Config, call: Call
      ensures field(Apply(d, call, parse)) == Step(field(d), FileOp(call))
    {
    }
    ListFieldFollowsOps(c, calls, parse, field, FileOp);
  }

  /** `files` after a chain of calls: the list of the last `with_files`, or
      the initial list when there is none, followed by the files of the
      `with_file` calls since, in call order. */
  lemma FilesAfterCalls(c: Config, calls: seq<Call>, parse: Parser)
    ensures (forall i :: 0 <= i < |calls| ==> !calls[i].WithFiles?) ==>
      ApplyAll(c, calls, parse).files == c.files + Pushed(Each(calls, FileOp))
    ensures forall k :: 0 <= k < |calls| && calls[k].WithFiles? &&
                        (forall i :: k < i < |calls| ==> !calls[i].WithFiles?) ==>
      ApplyAll(c, calls, parse).files == calls[k].newFiles + Pushed(Each(calls, FileOp)[k + 1..])
  {
    var ops := Each(calls, FileOp);
    FilesFollowFileOps(c, calls, parse);
    assert forall i :: 0 <= i < |calls| ==> (ops[i].Replace? <==> calls[i].WithFiles?);
    if forall i :: 0 <= i < |calls| ==> !calls[i].WithFiles? {
      FoldWithoutReplace(c.files, ops);
    }
    forall k | 0 <= k < |calls| && calls[k].WithFiles? && (forall i :: k < i < |calls| ==> !calls[i].WithFiles?)
      ensures ApplyAll(c, calls, parse).files == calls[k].newFiles + Pushed(ops[k + 1..])
    {
      FoldAfterReplace(c.files, ops, k);
    }
  }

  lemma MergeFilesFollowMergeFileOps(c: Config, calls: seq<Call>, parse: Parser)
    ensures ApplyAll(c, calls, parse).mergeFiles == Fold(c.mergeFiles, Each(calls, MergeFileOp))
  {
    var field := (d: Config) => d.mergeFiles;
    forall d: Config, call: Call
      ensures field(Apply(d, call, parse)) == Step(field(d), MergeFileOp(call))
    {
    }
    ListFieldFollowsOps(c, calls, parse, field, MergeFileOp);
  }

  /** `merge_files` after a chain of calls: the list of the last
      `with_merge_files`, or the initial list when there is none, followed by
      the files of the `with_merge_file` calls since, in call order. */
  lemma MergeFilesAfterCalls(c: Config, calls: seq<Call>, parse: Parser)
    ensures (forall i :: 0 <= i < |calls| ==> !calls[i].WithMergeFiles?) ==>
      ApplyAll(c, calls, parse).mergeFiles == c.mergeFiles + Pushed(Each(calls, MergeFileOp))
    ensures forall k :: 0 <= k < |calls| && calls[k].WithMergeFiles? &&
                        (forall i :: k < i < |calls| ==> !calls[i].WithMergeFiles?) ==>
      ApplyAll(c, calls, parse).mergeFiles == calls[k].newMergeFiles + Pushed(Each(calls, MergeFileOp)[k + 1..])
  {
    var ops := Each(calls, MergeFileOp);
    MergeFilesFollowMergeFileOps(c, calls, parse);
    assert forall i :: 0 <= i < |calls| ==> (ops[i].Replace? <==> calls[i].WithMergeFiles?);
    if forall i :: 0 <= i < |calls| ==> !calls[i].WithMergeFiles? {
      FoldWithoutReplace(c.mergeFiles, ops);
    }
    forall k | 0 <= k < |calls| && calls[k].WithMergeFiles? && (forall i :: k < i < |calls| ==> !calls[i].WithMergeFiles?)
      ensures ApplyAll(c, calls, parse).mergeFiles == calls[k].newMergeFiles + Pushed(ops[k + 1..])
    {
      FoldAfterReplace(c.mergeFiles, ops, k);
    }
  }

  lemma ColumnsFollowColumnOps(c: Config, calls: seq<Call>, parse: Parser)
    ensures ApplyAll(c, calls, parse).columns == Fold(c.columns, Each(calls, ColumnOp))
  {
    var field := (d: Config) => d.columns;
    forall d: Config, call: Call
      ensures field(Apply(d, call, parse)) == Step(field(d), ColumnOp(call))
    {
    }
    ListFieldFollowsOps(c, calls, parse, field, ColumnOp);
  }

  /** `columns` after a chain of calls: the list of the last `with_columns`,
      or the initial list when there is none, followed by the columns of the
      `with_column` calls since, in call order (a repeated column is kept
      twice). */
  lemma ColumnsAfterCalls(c: Config, calls: seq<Call>, parse: Parser)
    ensures (forall i :: 0 <= i < |calls| ==> !calls[i].WithColumns?) ==>
      ApplyAll(c, calls, parse).columns == c.columns + Pushed(Each(calls, ColumnOp))
    ensures forall k :: 0 <= k < |calls| && calls[k].WithColumns? &&
                        (forall i :: k < i < |calls| ==> !calls[i].WithColumns?) ==>
      ApplyAll(c, calls, parse).columns == calls[k].cols + Pushed(Each(calls, ColumnOp)[k + 1..])
  {
    var ops := Each(calls, ColumnOp);
    ColumnsFollowColumnOps(c, calls, parse);
    assert forall i :: 0 <= i < |calls| ==> (ops[i].Replace? <==> calls[i].WithColumns?);
    if forall i :: 0 <= i < |calls| ==> !calls[i].WithColumns? {
      FoldWithoutReplace(c.columns, ops);
    }
    forall k | 0 <= k < |calls| && calls[k].WithColumns? && (forall i :: k < i < |calls| ==> !calls[i].WithColumns?)
      ensures ApplyAll(c, calls, parse).columns == calls[k].cols + Pushed(ops[k + 1..])
    {
      FoldAfterReplace(c.columns, ops, k);
    }
  }

  // ----- Map fields: the last write of a key wins -----

  /** A map after the entry a call puts into it, if any. */
  function PutInto(m: map<string, string>, entry: Option<(string, string)>): map<string, string>
  {
    if entry.Some? then m[entry.value.0 := entry.value.1] else m
  }

  function PutAll(m: map<string, string>, entries: seq<Option<(string, string)>>): map<string, string>
    decreases |entries|
  {
    if entries == [] then m else PutAll(PutInto(m, entries[0]), entries[1..])
  }

  predicate PutsKey(entry: Option<(string, string)>, k: string)
  {
    entry.Some? && entry.value.0 == k
  }

  /** A key that no entry writes keeps its initial value, or stays absent. */
  lemma {:induction false} PutAllUntouched(m: map<string, string>, entries: seq<Option<(string, string)>>, k: string)
    requires forall i :: 0 <= i < |entries| ==> !PutsKey(entries[i], k)
    ensures Lookup(PutAll(m, entries), k) == Lookup(m, k)
    decreases |entries|
  {
    if entries != [] {
      assert !PutsKey(entries[0], k);
      PutAllUntouched(PutInto(m, entries[0]), entries[1..], k);
    }
  }

  /** The value of the last write of a key is the one the map ends with. */
  lemma {:induction false} PutAllLastWriteWins(m: map<string, string>, entries: seq<Option<(string, string)>>, j: nat)
    requires j < |entries| && entries[j].Some?
    requires forall i :: j < i < |entries| ==> !PutsKey(entries[i], entries[j].value.0)
    ensures Lookup(PutAll(m, entries), entries[j].value.0) == Some(entries[j].value.1)
    decreases j
  {
    var entry := entries[j].value;
    if j == 0 {
      forall i | 0 <= i < |entries[1..]| ensures !PutsKey(entries[1..][i], entry.0) {
        assert entries[1..][i] == entries[i + 1];
      }
      PutAllUntouched(PutInto(m, entries[0]), entries[1..], entry.0);
    } else {
      assert entries[1..][j - 1] == entries[j];
      forall i | j - 1 < i < |entries[1..]| ensures !PutsKey(entries[1..][i], entry.0) {
        assert entries[1..][i] == entries[i + 1];
      }
      PutAllLastWriteWins(PutInto(m, entries[0]), entries[1..], j - 1);
    }
  }

  function OptionPut(call: Call): Option<(string, string)>
  {
    if call.WithObjectStoreOption? then Some((call.key, call.optionValue)) else None
  }

  function SchemaPut(call: Call): Option<(string, string)>
  {
    if call.WithColumn? then Some((call.col, call.dataType)) else None
  }

  /** `objectStoreOptions` after a chain of calls is the initial map with
      the entries of the `with_object_store_option` calls put in, in order. */
  lemma {:induction false} OptionsFollowEntries(c: Config, calls: seq<Call>, parse: Parser)
    ensures ApplyAll(c, calls, parse).objectStoreOptions == PutAll(c.objectStoreOptions, Each(calls, OptionPut))
    decreases |calls|
  {
    if calls != [] {
      var d := Apply(c, calls[0], parse);
      assert d.objectStoreOptions == PutInto(c.objectStoreOptions, OptionPut(calls[0]));
      OptionsFollowEntries(d, calls[1..], parse);
      assert Each(calls, OptionPut)[1..] == Each(calls[1..], OptionPut);
    }
  }

  /** `schema` after a chain of calls is the initial map with the entries of
      the `with_column` calls put in, in order. */
  lemma {:induction false} SchemaFollowsEntries(c: Config, calls: seq<Call>, parse: Parser)
    ensures ApplyAll(c, calls, parse).schema == PutAll(c.schema, Each(calls, SchemaPut))
    decreases |calls|
  {
    if calls != [] {
      var d := Apply(c, calls[0], parse);
      assert d.schema == PutInto(c.schema, SchemaPut(calls[0]));
      SchemaFollowsEntries(d, calls[1..], parse);
      assert Each(calls, SchemaPut)[1..] == Each(calls[1..], SchemaPut);
    }
  }

  /** `with_object_store_option` overwrites: after a chain of calls, an option
      holds the value of its last write. */
  lemma ObjectStoreOptionLastWriteWins(c: Config, calls: seq<Call>, parse: Parser, j: nat)
    requires j < |calls| && calls[j].WithObjectStoreOption?
    requires forall i :: j < i < |calls| ==>
      !(calls[i].WithObjectStoreOption? && calls[i].key == calls[j].key)
    ensures calls[j].key in ApplyAll(c, calls, parse).objectStoreOptions
    ensures ApplyAll(c, calls, parse).objectStoreOptions[calls[j].key] == calls[j].optionValue
  {
    OptionsFollowEntries(c, calls, parse);
    PutAllLastWriteWins(c.objectStoreOptions, Each(calls, OptionPut), j);
  }

  /** An option that no call of a chain writes is left as it was. */
  lemma ObjectStoreOptionUntouched(c: Config, calls: seq<Call>, parse: Parser, k: string)
    requires forall i :: 0 <= i < |calls| ==> !(calls[i].WithObjectStoreOption? && calls[i].key == k)
    ensures k in ApplyAll(c, calls, parse).objectStoreOptions <==> k in c.objectStoreOptions
    ensures k in c.objectStoreOptions ==>
      ApplyAll(c, calls, parse).objectStoreOptions[k] == c.objectStoreOptions[k]
  {
    OptionsFollowEntries(c, calls, parse);
    PutAllUntouched(c.objectStoreOptions, Each(calls, OptionPut), k);
  }

  /** `with_column` declares a type: after a chain of calls, a column has the
      type of its last `with_column`, however often it was added. */
  lemma SchemaKeepsLastType(c: Config, calls: seq<Call>, parse: Parser, j: nat)
    requires j < |calls| && calls[j].WithColumn?
    requires forall i :: j < i < |calls| ==> !(calls[i].WithColumn? && calls[i].col == calls[j].col)
    ensures calls[j].col in ApplyAll(c, calls, parse).schema
    ensures ApplyAll(c, calls, parse).schema[calls[j].col] == calls[j].dataType
  {
    SchemaFollowsEntries(c, calls, parse);
    PutAllLastWriteWins(c.schema, Each(calls, SchemaPut), j);
  }

  /** The declared type of a column changes only through `with_column`;
      `with_columns` in particular leaves the schema alone. */
  lemma SchemaUntouched(c: Config, calls: seq<Call>, parse: Parser, k: string)
    requires forall i :: 0 <= i < |calls| ==> !(calls[i].WithColumn? && calls[i].col == k)
    ensures k in ApplyAll(c, calls, parse).schema <==> k in c.schema
    ensures k in c.schema ==> ApplyAll(c, calls, parse).schema[k] == c.schema[k]
  {
    SchemaFollowsEntries(c, calls, parse);
    PutAllUntouched(c.schema, Each(calls, SchemaPut), k);
  }

  /** Adding the same column twice keeps both entries in `columns` and the
      second type in the schema. */
  lemma RepeatedColumn(c: Config, col: string, t1: string, t2: string, parse: Parser)
    ensures var d := ApplyAll(c, [WithColumn(col, t1), WithColumn(col, t2)], parse);
      d.columns == c.columns + [col, col] && d.schema == c.schema[col := t2]
  {
    var calls := [WithColumn(col, t1), WithColumn(col, t2)];
    var d1 := Apply(c, calls[0], parse);
    var d2 := Apply(d1, calls[1], parse);
    assert calls[1..][1..] == [];
    assert ApplyAll(c, calls, parse) == ApplyAll(d1, calls[1..], parse) == d2;
    assert c.columns + [col] + [col] == c.columns + [col, col];
    assert c.schema[col := t1][col := t2] == c.schema[col := t2];
  }

  // ----- The builder -----

  /** `LakeSoulReaderConfigBuilder`: owns a configuration and updates it in
      place, one call at a time. The ghost `history` records the calls made so
      far, and `Valid` ties the configuration to them. */
  class LakeSoulReaderConfigBuilder {
    var config: Config
    const parse: Parser
    ghost const initial: Config
    ghost var history: seq<Call>

    ghost predicate Valid()
      reads this
    {
      config == ApplyAll(initial, history, parse)
    }

    constructor (defaultThreadNum: nat, defaultBufferSize: nat, parse: Parser)
      ensures Valid() && history == [] && this.parse == parse
      ensures config == DefaultConfig(defaultThreadNum, defaultBufferSize)
    {
      config := DefaultConfig(defaultThreadNum, defaultBufferSize);
      initial := DefaultConfig(defaultThreadNum, defaultBufferSize);
      this.parse := parse;
      history := [];
    }

    /** Appends one file to `files`. */
    method WithFile(file: string)
      requires Valid()
      modifies this
      ensures Valid() && history == old(history) + [Call.WithFile(file)]
      ensures config == old(config).(files := old(config.files) + [file])
    {
      ApplyAllSnoc(initial, history, Call.WithFile(file), parse);
      config := config.(files := config.files + [file]);
      history := history + [Call.WithFile(file)];
    }

    /** Replaces the whole of `files`. */
    method WithFiles(files: seq<string>)
      requires Valid()
      modifies this
      ensures Valid() && history == old(history) + [Call.WithFiles(files)]
      ensures config == old(config).(files := files)
    {
      ApplyAllSnoc(initial, history, Call.WithFiles(files), parse);
      config := config.(files := files);
      history := history + [Call.WithFiles(files)];
    }

    /** Appends one merge file to `mergeFiles`. */
    method WithMergeFile(file: MergePartitionedFile)
      requires Valid()
      modifies this
      ensures Valid() && history == old(history) + [Call.WithMergeFile(file)]
      ensures config == old(config).(mergeFiles := old(config.mergeFiles) + [file])
    {
      ApplyAllSnoc(initial, history, Call.WithMergeFile(file), parse);
      config := config.(mergeFiles := config.mergeFiles + [file]);
      history := history + [Call.WithMergeFile(file)];
    }

    /** Replaces the whole of `mergeFiles`. */
    method WithMergeFiles(files: seq<MergePartitionedFile>)
      requires Valid()
      modifies this
      ensures Valid() && history == old(history) + [Call.WithMergeFiles(files)]
      ensures config == old(config).(mergeFiles := files)
    {
      ApplyAllSnoc(initial, history, Call.WithMergeFiles(files), parse);
      config := config.(mergeFiles := files);
      history := history + [Call.WithMergeFiles(files)];
    }

    /** Replaces the whole of `primaryKeys`. */
    method WithPrimaryKeys(pks: seq<string>)
      requires Valid()
      modifies this
      ensures Valid() && history == old(history) + [Call.WithPrimaryKeys(pks)]
      ensures config == old(config).(primaryKeys := pks)
    {
      ApplyAllSnoc(initial, history, Call.WithPrimaryKeys(pks), parse);
      config := config.(primaryKeys := pks);
      history := history + [Call.WithPrimaryKeys(pks)];
    }

    /** Appends a column to `columns` and declares its type in `schema`,
        overwriting an earlier type of the same column. */
    method WithColumn(col: string, dataType: string)
      requires Valid()
      modifies this
      ensures Valid() && history == old(history) + [Call.WithColumn(col, dataType)]
      ensures config == old(config).(columns := old(config.columns) + [col], schema := old(config.schema)[col := dataType])
    {
      ApplyAllSnoc(initial, history, Call.WithColumn(col, dataType), parse);
      config := config.(columns := config.columns + [col], schema := config.schema[col := dataType]);
      history := history + [Call.WithColumn(col, dataType)];
    }

    /** Sets the batch size. */
    method WithBatchSize(batchSize: nat)
      requires Valid()
      modifies this
      ensures Valid() && history == old(history) + [Call.WithBatchSize(batchSize)]
      ensures config == old(config).(batchSize := batchSize)
    {
      ApplyAllSnoc(initial, history, Call.WithBatchSize(batchSize), parse);
      config := config.(batchSize := batchSize);
      history := history + [Call.WithBatchSize(batchSize)];
    }

    /** Sets the number of batches the stream may compute ahead. */
    method WithBufferSize(bufferSize: nat)
      requires Valid()
      modifies this
      ensures Valid() && history == old(history) + [Call.WithBufferSize(bufferSize)]
      ensures config == old(config).(bufferSize := bufferSize)
    {
      ApplyAllSnoc(initial, history, Call.WithBufferSize(bufferSize), parse);
      config := config.(bufferSize := bufferSize);
      history := history + [Call.WithBufferSize(bufferSize)];
    }

    /** Replaces the whole of `columns`; `schema` is left alone. */
    method WithColumns(cols: seq<string>)
      requires Valid()
      modifies this
      ensures Valid() && history == old(history) + [Call.WithColumns(cols)]
      ensures config == old(config).(columns := cols)
    {
      ApplyAllSnoc(initial, history, Call.WithColumns(cols), parse);
      config := config.(columns := cols);
      history := history + [Call.WithColumns(cols)];
    }

    /** Parses a filter text against the schema declared so far and appends
        the predicate to `filters`. */
    method WithFilterStr(filterStr: string)
      requires Valid()
      modifies this
      ensures Valid() && history == old(history) + [Call.WithFilterStr(filterStr)]
      ensures config == old(config).(filters := old(config.filters) + [parse(filterStr, old(config.schema))])
    {
      ApplyAllSnoc(initial, history, Call.WithFilterStr(filterStr), parse);
      var expr := parse(filterStr, config.schema);
      config := config.(filters := config.filters + [expr]);
      history := history + [Call.WithFilterStr(filterStr)];
    }

    /** Replaces the whole of `filters`. */
    method WithFilters(filters: seq<Expr>)
      requires Valid()
      modifies this
      ensures Valid() && history == old(history) + [Call.WithFilters(filters)]
      ensures config == old(config).(filters := filters)
    {
      ApplyAllSnoc(initial, history, Call.WithFilters(filters), parse);
      config := config.(filters := filters);
      history := history + [Call.WithFilters(filters)];
    }

    /** Sets one object-store option, overwriting an earlier value. */
    method WithObjectStoreOption(key: string, value: string)
      requires Valid()
      modifies this
      ensures Valid() && history == old(history) + [Call.WithObjectStoreOption(key, value)]
      ensures config == old(config).(objectStoreOptions := old(config.objectStoreOptions)[key := value])
    {
      ApplyAllSnoc(initial, history, Call.WithObjectStoreOption(key, value), parse);
      config := config.(objectStoreOptions := config.objectStoreOptions[key := value]);
      history := history + [Call.WithObjectStoreOption(key, value)];
    }

    /** Sets the size of the worker pool. */
    method WithThreadNum(threadNum: nat)
      requires Valid()
      modifies this
      ensures Valid() && history == old(history) + [Call.WithThreadNum(threadNum)]
      ensures config == old(config).(threadNum := threadNum)
    {
      ApplyAllSnoc(initial, history, Call.WithThreadNum(threadNum), parse);
      config := config.(threadNum := threadNum);
      history := history + [Call.WithThreadNum(threadNum)];
    }

    /** Hands out the configuration as it stands. */
    method Build() returns (c: Config)
      requires Valid()
      ensures c == config && c == ApplyAll(initial, history, parse)
    {
      c := config;
    }
  }
}
