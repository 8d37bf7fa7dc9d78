# LakeSoul native reader: configuration, object-store registration and reader lifecycle

This project models the core of the LakeSoul native reader
(`native-io/lakesoul-io/src/lakesoul_reader.rs`) in Dafny and proves properties of the model.
The core has three parts.

- **The read configuration and its builder** (`reader_config.dfy`, module `ReaderConfig`).
  `Config` is the `LakeSoulReaderConfig` record. The class `LakeSoulReaderConfigBuilder`
  updates it in place, one `with_*` call at a time. A ghost history of the calls, with
  `Valid()`, ties the configuration to `ApplyAll`, the fold of the per-call function `Apply`
  over that history. Lemmas about `ApplyAll` say which fields a chain of calls can change.
  For `files` and `columns`, they say the result is the last replacing list followed by the
  items appended since. For `schema` and the object-store options, the last write of a key wins.
- **Object-store options** (`object_store.dfy`, module `ObjectStore`).
  `CheckFsTypeEnabled` is `check_fs_type_enabled`. `S3StoreFor` is the decision
  `register_s3_object_store` makes from the options. The class `RuntimeEnv` holds the
  registry of object stores, keyed by scheme and bucket. The method `RegisterS3ObjectStore`
  carries out the decision on it.
- **The reader** (`reader.dfy`, module `Reader`). `LakeSoulReader.New` creates a reader with
  an empty stream slot. `Start` builds the plan and installs the stream: a scan of `files[0]`,
  a column selection when `columns` is not empty, then the filters folded on in list order
  (`FoldFilters`). `NextRb` hands out the next item. The stream is the engine's sequence of
  batch results plus a cursor. The query engine is an `Engine` of uninterpreted functions:
  the error of each plan-building step, the error of execution, and the batches of a plan.
  A read of the slot before `start` is an explicit `UndefinedBehaviour` result. A stream
  replaced by a second `start` is recorded in the ghost field `leaked`.
  `CountRows` is the loop of the tests' row-counting helper. It pulls until end-of-stream
  and unwraps each item.

`Common` (`common.dfy`) holds `Option`, the `Error` type and `Outcome`: a value, an error
returned through `Result`, or a panic. Panics are explicit outcomes, never preconditions:
indexing an empty `files`, unwrapping a missing S3 access key, secret or endpoint, and
unwrapping an error item in the row-counting loop.

In these places the code behaves in ways a caller may not expect, and the model follows the code:

- a second `start` is not rejected; it overwrites the stream slot without dropping the old stream;
- `next_rb` before `start` reads uninitialised memory instead of returning an error;
- an absent `fs.s3.endpoint`, access key or secret panics at an `unwrap` instead of falling back to a default;
- an empty `files` panics at the index instead of returning a configuration error;
- `merge_files` and `primary_keys` are stored but never read, so no merge precedence is applied or checked.

## Model

| member | source | states |
|---|---|---|
| `ReaderConfig.ApplyAllChangesOnlyTouched` | native-io/lakesoul-io/src/lakesoul_reader.rs:78-145 | a chain of builder calls changes no field outside those its calls name |
| `ReaderConfig.ApplyChangesOnlyTouched` | native-io/lakesoul-io/src/lakesoul_reader.rs:78-145 | one builder call changes no field outside those it names (`with_column`: columns and schema; `with_columns`: columns only) |
| `ReaderConfig.FilesAfterCalls` | native-io/lakesoul-io/src/lakesoul_reader.rs:78-86 | after a chain of calls, `files` is the list of the last `with_files` (or the initial list) followed by the `with_file` arguments since, in call order |
| `ReaderConfig.MergeFilesAfterCalls` | native-io/lakesoul-io/src/lakesoul_reader.rs:88-96 | after a chain of calls, `merge_files` is the list of the last `with_merge_files` (or the initial list) followed by the `with_merge_file` arguments since, in call order |
| `ReaderConfig.ColumnsAfterCalls` | native-io/lakesoul-io/src/lakesoul_reader.rs:103-123 | after a chain of calls, `columns` is the list of the last `with_columns` (or the initial list) followed by the `with_column` columns since, repeats kept, in call order |
| `ReaderConfig.FoldWithoutReplace` | native-io/lakesoul-io/src/lakesoul_reader.rs:78-96 | appending calls keep the earlier entries in order and add theirs at the end |
| `ReaderConfig.FoldAfterReplace` | native-io/lakesoul-io/src/lakesoul_reader.rs:78-96 | a replacing call discards everything before it; later appends go after the new list |
| `ReaderConfig.ObjectStoreOptionLastWriteWins` | native-io/lakesoul-io/src/lakesoul_reader.rs:137-140 | an option holds the value of its last `with_object_store_option` |
| `ReaderConfig.ObjectStoreOptionUntouched` | native-io/lakesoul-io/src/lakesoul_reader.rs:137-140 | an option no call writes stays present with its value, or stays absent |
| `ReaderConfig.SchemaKeepsLastType` | native-io/lakesoul-io/src/lakesoul_reader.rs:103-107 | a column's declared type is that of its last `with_column` |
| `ReaderConfig.SchemaUntouched` | native-io/lakesoul-io/src/lakesoul_reader.rs:103-123 | the schema entry of a column changes only through `with_column`; `with_columns` never touches it |
| `ReaderConfig.RepeatedColumn` | native-io/lakesoul-io/src/lakesoul_reader.rs:103-107 | adding a column twice lists it twice and keeps the second type |
| `ReaderConfig.LakeSoulReaderConfigBuilder.constructor` | native-io/lakesoul-io/src/lakesoul_reader.rs:41-76 | a new builder holds the default configuration: empty lists and maps, batch size 0 |
| `ReaderConfig.LakeSoulReaderConfigBuilder.WithFile` | native-io/lakesoul-io/src/lakesoul_reader.rs:78-81 | appends the file to `files`; nothing else changes |
| `ReaderConfig.LakeSoulReaderConfigBuilder.WithFiles` | native-io/lakesoul-io/src/lakesoul_reader.rs:83-86 | replaces `files`; nothing else changes |
| `ReaderConfig.LakeSoulReaderConfigBuilder.WithMergeFile` | native-io/lakesoul-io/src/lakesoul_reader.rs:88-91 | appends to `merge_files`; nothing else changes |
| `ReaderConfig.LakeSoulReaderConfigBuilder.WithMergeFiles` | native-io/lakesoul-io/src/lakesoul_reader.rs:93-96 | replaces `merge_files`; nothing else changes |
| `ReaderConfig.LakeSoulReaderConfigBuilder.WithPrimaryKeys` | native-io/lakesoul-io/src/lakesoul_reader.rs:98-101 | replaces `primary_keys`; nothing else changes |
| `ReaderConfig.LakeSoulReaderConfigBuilder.WithColumn` | native-io/lakesoul-io/src/lakesoul_reader.rs:103-107 | appends the column to `columns` and sets its type in `schema`; nothing else changes |
| `ReaderConfig.LakeSoulReaderConfigBuilder.WithBatchSize` | native-io/lakesoul-io/src/lakesoul_reader.rs:109-112 | sets the batch size; nothing else changes |
| `ReaderConfig.LakeSoulReaderConfigBuilder.WithBufferSize` | native-io/lakesoul-io/src/lakesoul_reader.rs:114-117 | sets the buffer size; nothing else changes |
| `ReaderConfig.LakeSoulReaderConfigBuilder.WithColumns` | native-io/lakesoul-io/src/lakesoul_reader.rs:120-123 | replaces `columns`, leaving `schema` as it was |
| `ReaderConfig.LakeSoulReaderConfigBuilder.WithFilterStr` | native-io/lakesoul-io/src/lakesoul_reader.rs:125-130 | appends the filter parsed against the schema declared so far; nothing else changes |
| `ReaderConfig.LakeSoulReaderConfigBuilder.WithFilters` | native-io/lakesoul-io/src/lakesoul_reader.rs:132-135 | replaces `filters`; nothing else changes |
| `ReaderConfig.LakeSoulReaderConfigBuilder.WithObjectStoreOption` | native-io/lakesoul-io/src/lakesoul_reader.rs:137-140 | sets `options[key] = value`, overwriting an old value; nothing else changes |
| `ReaderConfig.LakeSoulReaderConfigBuilder.WithThreadNum` | native-io/lakesoul-io/src/lakesoul_reader.rs:142-145 | sets the thread count; nothing else changes |
| `ReaderConfig.LakeSoulReaderConfigBuilder.Build` | native-io/lakesoul-io/src/lakesoul_reader.rs:147-149 | returns the configuration unchanged, which is the fold of the calls made so far |
| `ObjectStore.ParseBool` | native-io/lakesoul-io/src/lakesoul_reader.rs:174-177 | accepts exactly "true" and "false" |
| `ObjectStore.CheckFsTypeEnabled` | native-io/lakesoul-io/src/lakesoul_reader.rs:169-180 | true exactly when `fs.<name>.enabled` is present with the value "true"; absent or unparsable means false |
| `ObjectStore.S3StoreFor` | native-io/lakesoul-io/src/lakesoul_reader.rs:182-221 | off: registers nothing; on: missing region is the first error, then missing bucket; a missing key, secret or endpoint panics; otherwise one store built from the options, with 4 retries |
| `ObjectStore.DisabledRegistersNothing` | native-io/lakesoul-io/src/lakesoul_reader.rs:183-185 | with S3 off, the result is Ok and the registry is unchanged, whatever the other options |
| `ObjectStore.MissingOptionRegistersNothing` | native-io/lakesoul-io/src/lakesoul_reader.rs:191-201 | with S3 on and region or bucket missing, the region error wins, else the bucket error; the registry is unchanged |
| `ObjectStore.SuccessRegistersOneStore` | native-io/lakesoul-io/src/lakesoul_reader.rs:203-220 | success adds exactly the key ("s3", bucket) with the built store and 4 retries; every other entry is kept |
| `ObjectStore.ReRegisteringReplaces` | native-io/lakesoul-io/src/lakesoul_reader.rs:218 | registering the same bucket again replaces that one entry; the registry does not grow |
| `ObjectStore.RuntimeEnv.constructor` | native-io/lakesoul-io/src/lakesoul_reader.rs:226 | a new runtime's registry is empty |
| `ObjectStore.RuntimeEnv.RegisterObjectStore` | native-io/lakesoul-io/src/lakesoul_reader.rs:218 | puts the store under (scheme, host), replacing an earlier one |
| `ObjectStore.RegisterS3ObjectStore` | native-io/lakesoul-io/src/lakesoul_reader.rs:182-221 | returns the decision's outcome and changes the registry exactly as the decision says |
| `Reader.SessionFailsOnlyOnS3Options` | native-io/lakesoul-io/src/lakesoul_reader.rs:223-233 | session creation errs only for a missing region or bucket with S3 on, panics only for a missing key, secret or endpoint, and otherwise holds no store (S3 off) or exactly the bucket's store (S3 on) |
| `Reader.LakeSoulReader.CreateSessionContext` | native-io/lakesoul-io/src/lakesoul_reader.rs:223-233 | a fresh runtime with the S3 registration carried out, and the batch size |
| `Reader.LakeSoulReader.New` | native-io/lakesoul-io/src/lakesoul_reader.rs:160-167 | fails exactly when session creation fails; a new reader holds the config and an uninitialised stream slot |
| `Reader.LakeSoulReader.constructor` | native-io/lakesoul-io/src/lakesoul_reader.rs:162-166 | a reader starts with no stream and nothing leaked |
| `Reader.FoldFiltersOk` | native-io/lakesoul-io/src/lakesoul_reader.rs:244 | the filter fold succeeds exactly when the engine accepts each filter on the plan so far, and yields all filters stacked in list order |
| `Reader.FoldFiltersErr` | native-io/lakesoul-io/src/lakesoul_reader.rs:244 | a failing fold reports the error of the first rejected filter, after all earlier ones were accepted |
| `Reader.FilteredStack` | native-io/lakesoul-io/src/lakesoul_reader.rs:244 | the stacked plan carries the filters innermost first, in list order, over an unchanged base |
| `Reader.PlanShape` | native-io/lakesoul-io/src/lakesoul_reader.rs:235-244 | empty `files` panics; a built plan scans only `files[0]`, selects the columns only when there are some, and applies the filters in list order |
| `Reader.PlanBuiltIff` | native-io/lakesoul-io/src/lakesoul_reader.rs:236-244 | the plan is built exactly when the engine accepts the scan, the selection (if any) and every filter |
| `Reader.StartReadsOnlyFirstFile` | native-io/lakesoul-io/src/lakesoul_reader.rs:238 | files after the first one do not affect `start` |
| `Reader.LakeSoulReader.Start` | native-io/lakesoul-io/src/lakesoul_reader.rs:235-255 | returns the outcome of building and executing the plan; on success installs the executor's stream at cursor 0 and leaks any previous stream; on error or panic leaves the slot as it was |
| `Reader.LakeSoulReader.NextRb` | native-io/lakesoul-io/src/lakesoul_reader.rs:257-259 | hands out the item at the cursor and advances it; end-of-stream once exhausted; an uninitialised read before `start` |
| `Reader.PullsInOrder` | native-io/lakesoul-io/src/lakesoul_reader.rs:247-258 | successive pulls return the stream's items one at a time in order, then end-of-stream on every further pull |
| `Reader.PullsBeforeStart` | native-io/lakesoul-io/src/lakesoul_reader.rs:257-259 | before `start`, every pull is an uninitialised read and the slot stays empty |
| `Reader.CountRows` | native-io/lakesoul-io/src/lakesoul_reader.rs:556-576 | the row-counting loop returns the sum of the remaining batches' rows, or panics at the first error item, and leaves the stream exhausted |

## Left out

- `SyncSendableMutableLakeSoulReader` (lines 266-311) is not modelled: it is a concurrency bridge built on a lock, an async mutex, `block_on` and `spawn`. One fact about it: `start_blocked` discards the result of `start` and always returns `Ok(())` (lines 283-284).
- The query engine (DataFusion) is opaque. Reading parquet, selecting columns, filtering and executing are uninterpreted functions of `Engine`, and predicate semantics are not modelled. The engine does see the session context.
- The filter parser (`FilterParser::parse`) is a function parameter of the builder. The predicate tree it returns is not inspected.
- `MergePartitionedFile` keeps only a file name. `merge_files` and `primary_keys` are stored and never read.
- `AmazonS3Builder::build` is assumed to succeed (the `s3_store.unwrap()` at line 218). The retry backoff and timeout defaults and the network I/O are not modelled. Of the store's settings, only the retry policy's `max_retries` = 4 and the builder's `allow_http` flag are kept.
- `RuntimeEnv::new` is assumed not to fail. The registry of a fresh runtime is modelled as empty; any store a runtime registers by default is not part of this model.
- Batch size and thread count are only stored and forwarded. How they shape batches or size the worker pool is not modelled.
- Reader.SessionFailsOnlyOnS3Options: any check the query engine's `SessionConfig::with_batch_size` makes on the batch size it is given (line 225; the default batch size is 0) is not modelled, so a session is never refused for its batch size.
- `buffer_size` is not modelled beyond being stored. `buffered(n)` keeps the order of the stream, and that order is what the model captures; how far ahead it computes, and what a size of 0 does, belong to the futures library.
- The defaults of `thread_num` and `buffer_size` are constructor parameters. The record's std `Default` derive and its field annotations of 2 and 1 disagree, so no value is asserted.
- Asynchrony (`await` points) is not modelled; each async call is one step.
- Memory is not modelled. A stream overwritten by a second `start` is only recorded in the ghost field `leaked`. `UndefinedBehaviour` stands for the read of uninitialised memory, whose real effect is undefined.
- Panic messages are stand-ins; only the fact that the code panics, and where, is modelled.
- The filter tests' row-count identities (lines 579-790) depend on the contents of one data file and are not modelled.
- Reader.CountRows: sums rows with unbounded integers, so the overflow of the test's `usize` counter is not modelled.
