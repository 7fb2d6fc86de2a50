# RisingWave core pieces, modelled in Dafny

This project models eight small parts of the RisingWave streaming database and proves properties about them. Each part has its own module.

- `CompactionConfig`: the Hummock compaction-config builder. It covers the fixed defaults of `new`, `with_config`, `with_opt`, the field setters, and `build`, which validates the config but only warns about a bad one.
- `ChangeLog`: conversion of a table change log (epochs of new/old shards) to and from its protobuf form. The model proves round-trips in both directions.
- `ManagedLru`: the stream-side LRU cache wrapper (a class). It covers its four constructors and epoch tracking, watermark eviction, eviction that spares the current epoch, and reporting the evicted watermark to a metrics gauge.
- `EventHandler`: the `HummockEvent` debug strings, the sender a `LocalInstanceGuard` uses when it is dropped, the read-only lock reference, and look-ups in the read-version mapping.
- `MInput`: the materialized-input aggregation state. It covers the layout `new` computes (order key, column mappings, cache kind, output mode, and the panics) and the cache filling that `get_output` does.
- `FilterSimplify`: the stream filter-expression simplification rule. It rewrites `e AND NOT e` and `e OR NOT e` patterns to `false` and `IS NOT NULL`, with column extraction, the optimizable-pattern and special-pattern checks, and the rewrite.
- `Postgres`: the Postgres CDC external-table helpers. They cover the offset order, parsing an offset from its Debezium JSON, the normalized table name, the field list, the keyset filter expression and the snapshot query.
- `CorrelatedInputRefs`: a correlated input reference (a class). Its id is set after construction, equality uses all fields, and hashing ignores the id.

Shared types live in `Common`: `Option`, `Result`, the machine integer ranges, the scalar/datum types, decimal printing and `Join`.

Foreign code appears as function-valued parameters:
- the bitmap protobuf conversions;
- `try_fold_const`, `is_const` and `Strong::is_null`;
- the serde decoder;
- a hasher.

Foreign values appear as type parameters.

## Model

| member | source | states |
|---|---|---|
| CompactionConfig.Set | src/meta/src/hummock/compaction/compaction_config.rs:132-165 | a setter writes exactly its own field and leaves every other field as it was |
| CompactionConfig.New | src/meta/src/hummock/compaction/compaction_config.rs:20-78 | a new builder has max level 6, Range compaction mode, no split by state table, and a split weight of 0. Its compression list is None for L0-L2, Lz4 for L3-L4 and Zstd for L5-L6. Each of the fifteen thresholds and sizes is the matching external default: the three L0 stall thresholds, the base level size, the target file size base, the level multiplier, the max compaction bytes and sub-level max compaction bytes, the tier compact file number, the filter mask, the max sub-compaction, the reclaim bytes, the L0 max compact file number and the two L0 sub-level compact counts |
| CompactionConfig.Default | src/meta/src/hummock/compaction/compaction_config.rs:126-130 | the default builder is the same as `new` |
| CompactionConfig.WithConfig | src/meta/src/hummock/compaction/compaction_config.rs:80-82 | the builder holds the given config unchanged |
| CompactionConfig.WithOptOverridesExactly | src/meta/src/hummock/compaction/compaction_config.rs:84-103 | `with_opt` overrides exactly its thirteen options. The level count, mode, compression, the two other stall thresholds and the split settings stay as `new` sets them |
| CompactionConfig.Validate | src/meta/src/hummock/compaction/compaction_config.rs:113-124 | returns an error exactly when the sub-level stall threshold is below 1. The error message names the value and the minimum |
| CompactionConfig.Build | src/meta/src/hummock/compaction/compaction_config.rs:105-110 | returns the config unchanged. It logs a warning, prefixed "Bad compaction config: ", exactly when validation fails |
| CompactionConfig.ZeroSubLevelThresholdIsKept | src/meta/src/hummock/compaction/compaction_config.rs:105-124 | a threshold set to 0 still builds; it warns and the threshold stays 0 |
| CompactionConfig.WithOptValidIff | src/meta/src/hummock/compaction/compaction_config.rs:84-124 | a builder made by `with_opt` is valid iff the configured sub-level threshold is at least 1 |
| ChangeLog.ShardToPb | src/storage/hummock_sdk/src/change_log.rs:47-51 | a shard keeps its SSTs and table ids, and its bitmap is converted and present |
| ChangeLog.ShardsToPb | src/storage/hummock_sdk/src/change_log.rs:44-52 | converts shard by shard, so the length and order are kept |
| ChangeLog.EntryToPb | src/storage/hummock_sdk/src/change_log.rs:42-53 | an entry keeps its epochs, and its new and old shards are converted |
| ChangeLog.EntriesToPb | src/storage/hummock_sdk/src/change_log.rs:37-56 | converts entry by entry, keeping length and order |
| ChangeLog.ShardFromPb | src/storage/hummock_sdk/src/change_log.rs:67-71 | the bitmap is decoded and the other fields are kept |
| ChangeLog.ShardsFromPb | src/storage/hummock_sdk/src/change_log.rs:64-72 | decodes shard by shard, keeping length and order |
| ChangeLog.EntryFromPb | src/storage/hummock_sdk/src/change_log.rs:62-73 | the epochs are kept, and the new and old shards are decoded |
| ChangeLog.EntriesFromPb | src/storage/hummock_sdk/src/change_log.rs:58-76 | decodes entry by entry, keeping length and order |
| ChangeLog.ToProtobuf | src/storage/hummock_sdk/src/change_log.rs:36-55 | one protobuf entry per entry, in order, each converted by `EntryToPb` |
| ChangeLog.FromProtobuf | src/storage/hummock_sdk/src/change_log.rs:57-75 | needs every shard bitmap present (the source unwraps it). One entry per protobuf entry, in order, each decoded by `EntryFromPb` |
| ChangeLog.ToProtobufShape | src/storage/hummock_sdk/src/change_log.rs:37-56 | the protobuf log has the same number of entries, the same epochs and the same shard counts, and every bitmap is present |
| ChangeLog.ShardsRoundTrip | src/storage/hummock_sdk/src/change_log.rs:44-72 | if the bitmap decode inverts the encode, decoding converted shards gives back the original shards |
| ChangeLog.EntriesRoundTrip | src/storage/hummock_sdk/src/change_log.rs:37-76 | the same holds for the entry lists |
| ChangeLog.RoundTrip | src/storage/hummock_sdk/src/change_log.rs:37-76 | `from_protobuf(to_protobuf(log)) == log` |
| ChangeLog.ShardsRoundTripFromWire | src/storage/hummock_sdk/src/change_log.rs:44-72 | if the bitmap encode inverts the decode, converting decoded protobuf shards that all have bitmaps gives back the same shards |
| ChangeLog.EntriesRoundTripFromWire | src/storage/hummock_sdk/src/change_log.rs:37-76 | the same holds for the entry lists |
| ChangeLog.RoundTripFromWire | src/storage/hummock_sdk/src/change_log.rs:37-76 | `to_protobuf(from_protobuf(pb)) == pb` for every protobuf log whose bitmaps are all present |
| ManagedLru.WatermarkEpoch.constructor | src/stream/src/cache/managed_lru.rs:33-35 | the shared watermark cell starts at the given epoch |
| ManagedLru.EvictByEpoch | src/stream/src/cache/managed_lru.rs:43-47 | keeps exactly the entries whose epoch is at least the threshold, with their values unchanged |
| ManagedLru.ExceptCurEpochThreshold | src/stream/src/cache/managed_lru.rs:50-53 | the threshold is the smaller of the watermark and the current epoch |
| ManagedLru.CurrentEpochSurvives | src/stream/src/cache/managed_lru.rs:49-55 | an entry written in the current epoch or later survives `evict_except_cur_epoch` |
| ManagedLru.EvictMonotone | src/stream/src/cache/managed_lru.rs:43-55 | a higher threshold keeps fewer keys and evicts more |
| ManagedLru.ExceptCurEpochRemovesLess | src/stream/src/cache/managed_lru.rs:43-55 | `evict_except_cur_epoch` keeps every key that `evict` keeps |
| ManagedLru.ManagedLruCache.NewUnbounded | src/stream/src/cache/managed_lru.rs:82-90 | an empty unbounded cache with no metrics, sharing the given watermark cell |
| ManagedLru.ManagedLruCache.NewUnboundedWithMetrics | src/stream/src/cache/managed_lru.rs:92-101 | an empty unbounded cache with metrics |
| ManagedLru.ManagedLruCache.NewWithHasherIn | src/stream/src/cache/managed_lru.rs:103-119 | an empty cache with a custom hasher and allocator, with metrics |
| ManagedLru.ManagedLruCache.NewWithHasher | src/stream/src/cache/managed_lru.rs:121-131 | an empty cache with a custom hasher, with metrics |
| ManagedLru.ManagedLruCache.UpdateEpoch | src/stream/src/cache/managed_lru.rs:76-80 | the current epoch changes (through the mutable deref to the inner cache), and nothing else does |
| ManagedLru.ManagedLruCache.Put | src/stream/src/cache/managed_lru.rs:76-80 | the entry is stored, tagged with the current epoch, and nothing else changes |
| ManagedLru.ManagedLruCache.ReportEvictedWatermark | src/stream/src/cache/managed_lru.rs:57-65 | the epoch is recorded on the gauge only when metrics are configured, and the entries do not change |
| ManagedLru.ManagedLruCache.Evict | src/stream/src/cache/managed_lru.rs:42-47 | the entries become `EvictByEpoch(old, watermark)`. The watermark is reported when metrics are configured. The current epoch and the watermark are unchanged |
| ManagedLru.ManagedLruCache.EvictExceptCurEpoch | src/stream/src/cache/managed_lru.rs:49-55 | evicts below min(watermark, current epoch). Current-epoch entries survive, only old keys are removed, and the removed keys are a subset of what `evict` would remove. The clamped epoch is the one reported |
| EventHandler.DebugStringStartsWithVariantName | src/storage/src/hummock/event_handler/mod.rs:102-160 | every event's debug string begins with its variant name |
| EventHandler.AwaitSyncEpochDebugShowsEpoch | src/storage/src/hummock/event_handler/mod.rs:106-109 | the `AwaitSyncEpoch` debug string is the variant name followed by the epoch in decimal |
| EventHandler.ClearDebugShowsPrevEpoch | src/storage/src/hummock/event_handler/mod.rs:111 | the `Clear` debug string is the variant name followed by the previous epoch |
| EventHandler.EscapeDebug | src/storage/src/hummock/event_handler/mod.rs:163-169 | `Debug` string escaping never shortens a string |
| EventHandler.EscapeChar | src/storage/src/hummock/event_handler/mod.rs:163-169 | a character becomes itself, or a backslash followed by one character |
| EventHandler.EscapeDebugRoundTrip | src/storage/src/hummock/event_handler/mod.rs:163-169 | unescaping an escaped string gives back the original |
| EventHandler.DebugStructWithString | src/storage/src/hummock/event_handler/mod.rs:163-169 | the output is `HummockEvent { debug_string: "…" }`, and the quoted part unescapes to the given string |
| EventHandler.EventDebug | src/storage/src/hummock/event_handler/mod.rs:163-169 | the `Debug` output of an event wraps its `to_debug_string` and can be recovered from it |
| EventHandler.EventSender.constructor | src/storage/src/hummock/event_handler/mod.rs:197 | a sender starts with an empty queue and a live receiver |
| EventHandler.EventSender.Send | src/storage/src/hummock/event_handler/mod.rs:204-209 | succeeds and enqueues the event iff the receiver is alive. Otherwise it returns the event as the error and the queue is unchanged |
| EventHandler.EventSender.CloseReceiver | src/storage/src/hummock/event_handler/mod.rs:202-203 | after the handler is gone, the receiver is dead and the queue is unchanged |
| EventHandler.LocalInstanceGuard.constructor | src/storage/src/hummock/event_handler/mod.rs:194-198 | the guard holds the table id, instance id and sender, and has not been released |
| EventHandler.LocalInstanceGuard.Drop | src/storage/src/hummock/event_handler/mod.rs:200-217 | dropping sends exactly one `DestroyReadVersion` for the guard's table and instance when the receiver is alive. Otherwise it logs "LocalInstanceGuard Drop SendError" |
| EventHandler.DropFreshGuard | src/storage/src/hummock/event_handler/mod.rs:200-217 | dropping a fresh guard against a live handler leaves exactly `[DestroyReadVersion(table, instance)]` in the queue |
| EventHandler.ReadOnlyRwLockRef.constructor | src/storage/src/hummock/event_handler/mod.rs:185-187 | wraps the given shared lock |
| EventHandler.ReadOnlyRwLockRef.Read | src/storage/src/hummock/event_handler/mod.rs:189-191 | reads the current value of the shared lock |
| EventHandler.ReadOnlyRwLockRef.Clone | src/storage/src/hummock/event_handler/mod.rs:178-182 | a clone is a new handle to the same lock, not a copy of the value |
| EventHandler.ClonesShareTheCell | src/storage/src/hummock/event_handler/mod.rs:176-192 | after a write, both the original handle and its clone read the new value |
| EventHandler.ReadVersionsFor | src/storage/src/hummock/event_handler/mod.rs:173 | the two-level read-version mapping gives at most one version per (table, instance). It gives one exactly when both keys are present |
| MInput.Reverse | src/stream/src/executor/aggregation/minput.rs:93-95 | reversing an order type flips both the direction and the nulls placement |
| MInput.UnzipOrders | src/stream/src/executor/aggregation/minput.rs:86-101 | column indices and order types are taken pointwise, and each order type is reversed exactly when asked |
| MInput.ExtremeOrderFirst | src/stream/src/executor/aggregation/minput.rs:76-85 | for min/max, the order key starts with the argument column, ascending for min and descending for max |
| MInput.DeclaredOrderFirst | src/stream/src/executor/aggregation/minput.rs:86-101 | for other kinds, the order key starts with the call's declared ORDER BY, reversed for `last_value` |
| MInput.DistinctAddsArgOnce | src/stream/src/executor/aggregation/minput.rs:106-111 | a DISTINCT call appends the argument column once, ascending, and no primary key |
| MInput.NonDistinctAppendsPk | src/stream/src/executor/aggregation/minput.rs:112-115 | a non-distinct call appends the upstream primary key, with the direction chosen by the aggregate kind |
| MInput.OrderKey | src/stream/src/executor/aggregation/minput.rs:76-115 | the order key's column list and order-type list have the same length, and the kind's own order columns come first |
| MInput.BuildOrderKey | src/stream/src/executor/aggregation/minput.rs:76-115 | the order key built step by step equals `OrderKey` |
| MInput.MapColumns | src/stream/src/executor/aggregation/minput.rs:123-141 | mapping succeeds iff every index is in the mapping, and the result is mapped pointwise |
| MInput.NewLayout | src/stream/src/executor/aggregation/minput.rs:68-179 | fails exactly when `FirstPanic` names a panic, and with that panic: a missing argument, then an unmapped argument column, then an unmapped order column, then an order column outside the input schema, then an unexpected kind. Any kind other than min, max, first_value, last_value, string_agg and array_agg fails. On success it gives the order key, the mapped indices, the order-column data types, a TopN cache for min/max/first_value/last_value (and Ordered otherwise), and output-first-value for exactly those four kinds |
| MInput.Project | src/stream/src/executor/aggregation/minput.rs:216-221 | the projected row holds the chosen columns in the chosen order |
| MInput.CacheRows | src/stream/src/executor/aggregation/minput.rs:213-230 | each state row becomes one cache row: the order-key projection and the argument values |
| MInput.FillCount | src/stream/src/executor/aggregation/minput.rs:213 | the filler takes all rows when it has no capacity, and otherwise at most its capacity |
| MInput.Values | src/stream/src/executor/aggregation/minput.rs:239-247 | the cached values, in cache order |
| MInput.AggStateCache.constructor | src/stream/src/executor/aggregation/minput.rs:149-168 | a new cache has the layout's kind, is unsynced and is empty |
| MInput.MaterializedInputState.constructor | src/stream/src/executor/aggregation/minput.rs:170-178 | the state holds the layout and a fresh, unsynced, empty cache |
| MInput.MaterializedInputState.GetOutput | src/stream/src/executor/aggregation/minput.rs:193-249 | an unsynced cache is filled with the first `FillCount` state rows and becomes synced; a synced cache is left alone. The output is the first cached value when the layout outputs the first value, and all cached values otherwise |
| MInput.New | src/stream/src/executor/aggregation/minput.rs:68-179 | on success it gives a fresh state with an unsynced cache of the layout's kind |
| FilterSimplify.WithCapacity | src/frontend/src/optimizer/rule/stream/stream_filter_expression_simplify_rule.rs:190 | the bit set has the given capacity and no bit set |
| FilterSimplify.ReachableIsInputRef | src/frontend/src/optimizer/rule/stream/stream_filter_expression_simplify_rule.rs:57-76 | whatever the column walk can reach is an input reference |
| FilterSimplify.ColsFromFacts | src/frontend/src/optimizer/rule/stream/stream_filter_expression_simplify_rule.rs:57-76 | `extract_column` only appends to its accumulator. It adds exactly the reachable input references and never a duplicate |
| FilterSimplify.ColsSeqFacts | src/frontend/src/optimizer/rule/stream/stream_filter_expression_simplify_rule.rs:64-66 | the same holds over a function call's argument list |
| FilterSimplify.ColsAreReachableInputRefs | src/frontend/src/optimizer/rule/stream/stream_filter_expression_simplify_rule.rs:57-76 | the extracted columns are exactly the reachable input references, without duplicates |
| FilterSimplify.ExtractColumn | src/frontend/src/optimizer/rule/stream/stream_filter_expression_simplify_rule.rs:57-76 | the loop over a call's inputs computes the recursive column set |
| FilterSimplify.InputColsWithin | src/frontend/src/optimizer/rule/stream/stream_filter_expression_simplify_rule.rs:59-67 | an input's columns are among its call's columns |
| FilterSimplify.TryWrapInner | src/frontend/src/optimizer/rule/stream/stream_filter_expression_simplify_rule.rs:84-101 | gives nothing iff the expression references no column. Otherwise it gives `IS NOT NULL` of that single column |
| FilterSimplify.CheckOptimizablePattern | src/frontend/src/optimizer/rule/stream/stream_filter_expression_simplify_rule.rs:82-136 | the flag holds iff one side is the negation of the other. The wrap comes from the side that is not the NOT and is `IS NOT NULL` of a column of that side. It is absent exactly when that side has no column |
| FilterSimplify.OptimizablePatternPrefersLeftNot | src/frontend/src/optimizer/rule/stream/stream_filter_expression_simplify_rule.rs:112-135 | with `NOT c` on both sides, the left side is taken as the negation |
| FilterSimplify.SpecialPatternInner | src/frontend/src/optimizer/rule/stream/stream_filter_expression_simplify_rule.rs:144-153 | decides only when constant folding gives a boolean or null, with `OR` giving true and `AND` giving false |
| FilterSimplify.CheckSpecialPattern | src/frontend/src/optimizer/rule/stream/stream_filter_expression_simplify_rule.rs:143-168 | decides iff the left side is a constant that decides, or the right side is a literal that decides. The value is `op == OR` |
| FilterSimplify.RewriteExpr | src/frontend/src/optimizer/rule/stream/stream_filter_expression_simplify_rule.rs:172-237 | more than one column leaves the expression unchanged, and a definitely-null expression becomes false. Otherwise a call that is not a two-input AND/OR is kept. For a two-input AND/OR, a deciding special pattern gives its boolean; without one, a pair that is not a negation pair is kept, AND with its negation gives false, and OR with its negation gives true exactly when the positive side has no column and otherwise `IS NOT NULL` of one of that side's columns. Every result is the input, true, false, or `IS NOT NULL` of one of its columns |
| FilterSimplify.WrapTargetFits | src/frontend/src/optimizer/rule/stream/stream_filter_expression_simplify_rule.rs:172-181 | when the rule goes past the column check, the side it wraps has at most one column |
| FilterSimplify.WrapTargetColumnWithin | src/frontend/src/optimizer/rule/stream/stream_filter_expression_simplify_rule.rs:217-227 | the wrapped column is one of the whole expression's columns |
| FilterSimplify.AndWithNegationIsFalse | src/frontend/src/optimizer/rule/stream/stream_filter_expression_simplify_rule.rs:228-231 | `x AND NOT x` becomes false |
| FilterSimplify.OrWithNegationIsNotNull | src/frontend/src/optimizer/rule/stream/stream_filter_expression_simplify_rule.rs:220-227 | `x OR NOT x` becomes `IS NOT NULL` of x's column, or true when x has no column |
| FilterSimplify.DefinitelyNullFirst | src/frontend/src/optimizer/rule/stream/stream_filter_expression_simplify_rule.rs:183-194 | a single-column expression that `Strong::is_null` reports null for an empty bit set (null whatever the input row holds) is rewritten to false, before any other check |
| FilterSimplify.NonConnectiveKept | src/frontend/src/optimizer/rule/stream/stream_filter_expression_simplify_rule.rs:196-201 | an expression with at most one column that is not definitely null and is not an AND/OR call is kept |
| FilterSimplify.LeftNegationAndIsFalse | src/frontend/src/optimizer/rule/stream/stream_filter_expression_simplify_rule.rs:228-231 | `NOT x AND x` becomes false when no special pattern decides it |
| FilterSimplify.LeftNegationOrIsNotNull | src/frontend/src/optimizer/rule/stream/stream_filter_expression_simplify_rule.rs:220-227 | `NOT x OR x` becomes true exactly when x has no column, and otherwise `IS NOT NULL` of one of x's columns |
| Postgres.Compare | src/connector/src/source/cdc/external/postgres.rs:36-42 | the derived order is lexicographic on (txid, lsn), with Equal exactly for equal offsets |
| Postgres.CompareAntisymmetric | src/connector/src/source/cdc/external/postgres.rs:36-42 | swapping the arguments flips the result |
| Postgres.CompareTransitive | src/connector/src/source/cdc/external/postgres.rs:36-42 | Less is transitive |
| Postgres.TxidDominates | src/connector/src/source/cdc/external/postgres.rs:36-42 | a smaller txid orders first, whatever the lsn |
| Postgres.ParseDebeziumOffset | src/connector/src/source/cdc/external/postgres.rs:45-60 | a decode failure gives "invalid upstream offset: …, error: …". A missing txid or lsn gives "invalid postgres txid"/"invalid postgres lsn", txid first. Otherwise it gives the decoded pair |
| Postgres.ParseRecoversDecodedOffset | src/connector/src/source/cdc/external/postgres.rs:45-60 | parsing gives back exactly the offset the decoder found |
| Postgres.NormalizedTableName | src/connector/src/source/cdc/external/postgres.rs:73-78 | the result is `"schema"."table"`, with its length and the position of each part stated |
| Postgres.NormalizedTableNameInjective | src/connector/src/source/cdc/external/postgres.rs:73-78 | for names without a double quote, different names give different normalized names |
| Postgres.NormalizedTableNameCollides | src/connector/src/source/cdc/external/postgres.rs:73-78 | two distinct names that contain quotes give the same normalized name |
| Postgres.WithoutOffsetColumn | src/connector/src/source/cdc/external/postgres.rs:158-161 | keeps every field that is not the offset column and drops every field that is |
| Postgres.Quoted | src/connector/src/source/cdc/external/postgres.rs:162 | the name is wrapped in double quotes |
| Postgres.QuoteAll | src/connector/src/source/cdc/external/postgres.rs:162 | quotes each name, pointwise |
| Postgres.WithoutOffsetColumnOfOthers | src/connector/src/source/cdc/external/postgres.rs:158-163 | a list in which no field is the offset column is kept whole and in order |
| Postgres.WithoutOffsetColumnAppend | src/connector/src/source/cdc/external/postgres.rs:158-163 | filtering distributes over concatenation, so the kept fields stay in their order and each keeps its multiplicity |
| Postgres.FieldNames | src/connector/src/source/cdc/external/postgres.rs:158-163 | for a schema without the offset column, the field list is every field name quoted, joined by commas |
| Postgres.WithoutTrailingOffsetColumn | src/connector/src/source/cdc/external/postgres.rs:158-163 | a schema with the offset column appended gives the same field list as the schema without it |
| Postgres.Placeholders | src/connector/src/source/cdc/external/postgres.rs:226-233 | n placeholders, the k-th being `$k` (counting from 1) |
| Postgres.FilterExpression | src/connector/src/source/cdc/external/postgres.rs:222-235 | the loop builds `(c1, c2, …) > ($1, $2, …)` |
| Postgres.PlaceholdersNumberedFromOne | src/connector/src/source/cdc/external/postgres.rs:226-233 | the i-th placeholder is `$` followed by i+1 in decimal |
| Postgres.PlaceholdersDistinct | src/connector/src/source/cdc/external/postgres.rs:226-233 | no two placeholders are equal |
| Postgres.FilterExpressionOfThreeColumns | src/connector/src/source/cdc/external/postgres.rs:250-255 | three columns give `(v1, v2, v3) > ($1, $2, $3)` |
| Postgres.SnapshotQueryOf | src/connector/src/source/cdc/external/postgres.rs:180-205 | with no start key there are no parameters. With a start key the start row is passed as the parameters. The SQL text is stated by `ResumeOnlyAddsFilter` |
| Postgres.ResumeOnlyAddsFilter | src/connector/src/source/cdc/external/postgres.rs:180-197 | the full-scan query is `SELECT <fields> FROM <table> ORDER BY <keys>`. The resumed query is that text with ` WHERE <filter>` inserted just before ` ORDER BY <keys>`, and nothing else differs |
| Postgres.ParamsMatchPlaceholders | src/connector/src/source/cdc/external/postgres.rs:189-205 | a start row with one value per key column gives as many parameters as the filter has placeholders |
| CorrelatedInputRefs.CorrelatedInputRef.constructor | src/frontend/src/expr/correlated_input_ref.rs:58-65 | the index, type and depth are as given, and the id is uninitialized (0) |
| CorrelatedInputRefs.CorrelatedInputRef.SetCorrelatedId | src/frontend/src/expr/correlated_input_ref.rs:76-78 | the id becomes the new one. The other fields cannot change |
| CorrelatedInputRefs.CorrelatedInputRef.Clone | src/frontend/src/expr/correlated_input_ref.rs:25-38 | a clone is a new object with its own id cell, holding the same values |
| CorrelatedInputRefs.CorrelatedInputRef.Key | src/frontend/src/expr/correlated_input_ref.rs:40-46 | the hash is fed the index, type and depth, and not the id |
| CorrelatedInputRefs.CorrelatedInputRef.Equals | src/frontend/src/expr/correlated_input_ref.rs:48-55 | two references are equal exactly when their hashed fields (index, type, depth) agree and their ids agree |
| CorrelatedInputRefs.EqualImpliesSameHash | src/frontend/src/expr/correlated_input_ref.rs:40-55 | equal references hash equally under every hasher |
| CorrelatedInputRefs.HashIgnoresCorrelatedId | src/frontend/src/expr/correlated_input_ref.rs:40-55 | references that differ only in the id are unequal but hash the same |
| CorrelatedInputRefs.EqualsIsEquivalence | src/frontend/src/expr/correlated_input_ref.rs:48-55 | equality is reflexive, symmetric and transitive |

## Left out

- `ManagedLru`: the inner LRU cache's own behaviour comes from another crate and is not part of this model. The model assumes that `evict_by_epoch` drops exactly the entries below the epoch, that `put` tags an entry with the current epoch, and that the inner cache's first current epoch is 0. The LRU order, the capacity and the memory accounting are not modelled.
- `ManagedLru`: the gauge is recorded as the reported epoch. Converting the epoch to physical time is not modelled.
- `ManagedLru`: the hasher and the allocator are not modelled. The constructors record only which kind of inner cache they build.
- `ManagedLru.ManagedLruCache.UpdateEpoch`, `ManagedLru.ManagedLruCache.Put`: these stand in for inner-cache calls reached through the mutable deref. They are not methods of the wrapper itself.
- `CompactionConfig`: the external `default_compaction_config` values are a parameter. `CompactionMode::Range` is taken to be 1, its protobuf value.
- `EventHandler.EscapeChar`: only the escapes `\\`, `\"`, `\n`, `\r`, `\t` and `\0` are modelled. Rust's `\u{…}` escapes for other control and non-printable characters are not.
- `EventHandler`: `TableId`'s debug form is taken as the derived `TableId { table_id: n }`. The reply channels, the `Arc` payloads and their debug strings beyond variant names and epochs are opaque.
- `EventHandler`: the event-handler loop, the uploader, the refiller, the version registry and the channel's own concurrency are not part of this model. The channel is a queue with a receiver-alive flag.
- `MInput`: `apply_chunk` and the cache's own insert/delete, TopN eviction and sync bookkeeping are left out. Only the filling done by `get_output` and its output are modelled.
- `MInput`: memcomparable serialization of the cache key is modelled as the projected order-key columns. Aggregate evaluation in `get_output` (the non-first-value path) is modelled as handing back all cached values in order.
- `MInput.New`: its contract states only the fresh, unsynced cache of the layout's kind. The panics and the layout are stated on `MInput.NewLayout`, which `New` calls.
- `MInput.MaterializedInputState.GetOutput`: for the first-value kinds the output is the whole first cached argument row. Taking a single datum out of it happens in the cache module, which is not part of this model.
- `MInput`: the state-table iterator and its errors are left out. The state rows are a parameter.
- `FilterSimplify`: `StreamFilterExpressionSimplifyRule::apply` (rebuilding the plan node from the rewritten predicate) is left out.
- `FilterSimplify`: `try_fold_const`, `is_const` and `Strong::is_null` are oracle parameters. `FunctionCall::new(IsNotNull, …)` is assumed to succeed.
- `FilterSimplify.RewriteExpr`: requires the rewritten comparison's return type to be boolean where the source asserts it.
- `Postgres`: the network I/O, the connection, `current_cdc_offset`, the row stream of `snapshot_read` and the Debezium JSON decoder are left out. The decoder is a parameter.
- `Postgres.WithoutOffsetColumn`: the name of the offset column is a parameter, not the source's constant.
- `CorrelatedInputRefs`: `Debug` and `to_expr_proto` are left out.
- `ChangeLog`: `Bitmap`, `SstableInfo` and the table ids are opaque type parameters.
- The context files (jsonb_record, tempo_gen, the change-log iterator, the nexmark scaling test, the Doris sink check) are not part of this model.
