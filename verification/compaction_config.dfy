/** The leveling policy builder of the meta service: a `CompactionConfig` record with
    fixed defaults, one setter per field (generated by the `builder_field!` macro), a
    builder seeded from the loader's options, and an advisory validator. */
module CompactionConfig {
  import opened Common

  /** Maximum level index of the LSM tree (levels 0..=6). */
  const MAX_LEVEL: u64 := 6

  /** Wire value of `CompactionMode::Range` in the protobuf enum. */
  const COMPACTION_MODE_RANGE: i32 := 1

  /** Lower bound enforced on `level0_stop_write_threshold_sub_level_number`. */
  const SUB_LEVEL_NUMBER_THRESHOLD_MIN: u64 := 1

  /** The protobuf `CompactionConfig`, all twenty fields. */
  datatype Config = Config(
    maxBytesForLevelBase: u64,
    maxBytesForLevelMultiplier: u64,
    maxLevel: u64,
    maxCompactionBytes: u64,
    subLevelMaxCompactionBytes: u64,
    level0TierCompactFileNumber: u64,
    targetFileSizeBase: u64,
    compactionMode: i32,
    compressionAlgorithm: seq<string>,
    compactionFilterMask: u32,
    maxSubCompaction: u32,
    maxSpaceReclaimBytes: u64,
    splitByStateTable: bool,
    splitWeightByVnode: u32,
    level0StopWriteThresholdSubLevelNumber: u64,
    level0MaxCompactFileNumber: u64,
    level0SubLevelCompactLevelCount: u32,
    level0OverlappingSubLevelCompactLevelCount: u32,
    level0StopWriteThresholdMergeIterCount: u64,
    level0StopWriteThresholdOverlappingFileCount: u64)

  /** The values of the `default::compaction_config` functions of the common crate. */
  datatype ExternalDefaults = ExternalDefaults(
    maxBytesForLevelBase: u64,
    maxBytesForLevelMultiplier: u64,
    maxCompactionBytes: u64,
    subLevelMaxCompactionBytes: u64,
    level0TierCompactFileNumber: u64,
    targetFileSizeBase: u64,
    compactionFilterMask: u32,
    maxSubCompaction: u32,
    maxSpaceReclaimBytes: u64,
    level0StopWriteThresholdSubLevelNumber: u64,
    level0MaxCompactFileNumber: u64,
    level0SubLevelCompactLevelCount: u32,
    level0OverlappingSubLevelCompactLevelCount: u32,
    level0StopWriteThresholdMergeIterCount: u64,
    level0StopWriteThresholdOverlappingFileCount: u64)

  /** The fields of the configuration loader's `CompactionConfig` that `with_opt` reads. */
  datatype CompactionConfigOpt = CompactionConfigOpt(
    maxBytesForLevelBase: u64,
    maxBytesForLevelMultiplier: u64,
    maxCompactionBytes: u64,
    subLevelMaxCompactionBytes: u64,
    level0TierCompactFileNumber: u64,
    targetFileSizeBase: u64,
    compactionFilterMask: u32,
    maxSubCompaction: u32,
    level0StopWriteThresholdSubLevelNumber: u64,
    level0SubLevelCompactLevelCount: u32,
    level0OverlappingSubLevelCompactLevelCount: u32,
    maxSpaceReclaimBytes: u64,
    level0MaxCompactFileNumber: u64)

  datatype Builder = Builder(config: Config)

  /** The eighteen fields listed in the `builder_field!` invocation, one setter each. */
  datatype Field =
    | MaxBytesForLevelBase
    | MaxBytesForLevelMultiplier
    | MaxLevel
    | MaxCompactionBytes
    | SubLevelMaxCompactionBytes
    | Level0TierCompactFileNumber
    | CompactionMode
    | CompressionAlgorithm
    | CompactionFilterMask
    | TargetFileSizeBase
    | MaxSubCompaction
    | MaxSpaceReclaimBytes
    | Level0StopWriteThresholdSubLevelNumber
    | Level0MaxCompactFileNumber
    | Level0SubLevelCompactLevelCount
    | Level0OverlappingSubLevelCompactLevelCount
    | Level0StopWriteThresholdMergeIterCount
    | Level0StopWriteThresholdOverlappingFileCount

  /** A value of one of the four field types the macro mentions. */
  datatype FieldValue = U64(u: u64) | I32(i: i32) | U32(w: u32) | Strings(names: seq<string>)

  /** The Rust type the macro gives each setter's argument. */
  predicate HasFieldType(f: Field, v: FieldValue)
  {
    match f
    case CompactionMode => v.I32?
    case CompressionAlgorithm => v.Strings?
    case CompactionFilterMask | MaxSubCompaction
      | Level0SubLevelCompactLevelCount | Level0OverlappingSubLevelCompactLevelCount => v.U32?
    case _ => v.U64?
  }

  /** Reads field `f` of `c`. */
  function Get(c: Config, f: Field): (v: FieldValue)
    ensures HasFieldType(f, v)
  {
    match f
    case MaxBytesForLevelBase => U64(c.maxBytesForLevelBase)
    case MaxBytesForLevelMultiplier => U64(c.maxBytesForLevelMultiplier)
    case MaxLevel => U64(c.maxLevel)
    case MaxCompactionBytes => U64(c.maxCompactionBytes)
    case SubLevelMaxCompactionBytes => U64(c.subLevelMaxCompactionBytes)
    case Level0TierCompactFileNumber => U64(c.level0TierCompactFileNumber)
    case CompactionMode => I32(c.compactionMode)
    case CompressionAlgorithm => Strings(c.compressionAlgorithm)
    case CompactionFilterMask => U32(c.compactionFilterMask)
    case TargetFileSizeBase => U64(c.targetFileSizeBase)
    case MaxSubCompaction => U32(c.maxSubCompaction)
    case MaxSpaceReclaimBytes => U64(c.maxSpaceReclaimBytes)
    case Level0StopWriteThresholdSubLevelNumber => U64(c.level0StopWriteThresholdSubLevelNumber)
    case Level0MaxCompactFileNumber => U64(c.level0MaxCompactFileNumber)
    case Level0SubLevelCompactLevelCount => U32(c.level0SubLevelCompactLevelCount)
    case Level0OverlappingSubLevelCompactLevelCount => U32(c.level0OverlappingSubLevelCompactLevelCount)
    case Level0StopWriteThresholdMergeIterCount => U64(c.level0StopWriteThresholdMergeIterCount)
    case Level0StopWriteThresholdOverlappingFileCount => U64(c.level0StopWriteThresholdOverlappingFileCount)
  }

  /** The generated setter for field `f`: it consumes the builder and returns it with
      that one field replaced by `v`. */
  function Set(b: Builder, f: Field, v: FieldValue): (r: Builder)
    requires HasFieldType(f, v)
    ensures Get(r.config, f) == v
    ensures forall g :: g != f ==> Get(r.config, g) == Get(b.config, g)
    ensures r.config.splitByStateTable == b.config.splitByStateTable
    ensures r.config.splitWeightByVnode == b.config.splitWeightByVnode
  {
    var c := b.config;
    Builder(
      match f
      case MaxBytesForLevelBase => c.(maxBytesForLevelBase := v.u)
      case MaxBytesForLevelMultiplier => c.(maxBytesForLevelMultiplier := v.u)
      case MaxLevel => c.(maxLevel := v.u)
      case MaxCompactionBytes => c.(maxCompactionBytes := v.u)
      case SubLevelMaxCompactionBytes => c.(subLevelMaxCompactionBytes := v.u)
      case Level0TierCompactFileNumber => c.(level0TierCompactFileNumber := v.u)
      case CompactionMode => c.(compactionMode := v.i)
      case CompressionAlgorithm => c.(compressionAlgorithm := v.names)
      case CompactionFilterMask => c.(compactionFilterMask := v.w)
      case TargetFileSizeBase => c.(targetFileSizeBase := v.u)
      case MaxSubCompaction => c.(maxSubCompaction := v.w)
      case MaxSpaceReclaimBytes => c.(maxSpaceReclaimBytes := v.u)
      case Level0StopWriteThresholdSubLevelNumber => c.(level0StopWriteThresholdSubLevelNumber := v.u)
      case Level0MaxCompactFileNumber => c.(level0MaxCompactFileNumber := v.u)
      case Level0SubLevelCompactLevelCount => c.(level0SubLevelCompactLevelCount := v.w)
      case Level0OverlappingSubLevelCompactLevelCount => c.(level0OverlappingSubLevelCompactLevelCount := v.w)
      case Level0StopWriteThresholdMergeIterCount => c.(level0StopWriteThresholdMergeIterCount := v.u)
      case Level0StopWriteThresholdOverlappingFileCount => c.(level0StopWriteThresholdOverlappingFileCount := v.u))
  }

  /** Per-level compression: none for L0-L2, Lz4 for L3-L4, Zstd for L5-L6. */
  const DEFAULT_COMPRESSION: seq<string> := ["None", "None", "None", "Lz4", "Lz4", "Zstd", "Zstd"]

  /** `CompactionConfigBuilder::new`: fixed constants plus the external defaults. */
  function New(d: ExternalDefaults): (b: Builder)
    ensures b.config.maxLevel == MAX_LEVEL
    ensures b.config.compactionMode == COMPACTION_MODE_RANGE
    ensures !b.config.splitByStateTable && b.config.splitWeightByVnode == 0
    ensures |b.config.compressionAlgorithm| == MAX_LEVEL + 1
    ensures forall l :: 0 <= l <= 2 ==> b.config.compressionAlgorithm[l] == "None"
    ensures forall l :: 3 <= l <= 4 ==> b.config.compressionAlgorithm[l] == "Lz4"
    ensures forall l :: 5 <= l <= MAX_LEVEL ==> b.config.compressionAlgorithm[l] == "Zstd"
    ensures b.config.level0StopWriteThresholdSubLevelNumber == d.level0StopWriteThresholdSubLevelNumber
    ensures b.config.level0StopWriteThresholdMergeIterCount == d.level0StopWriteThresholdMergeIterCount
    ensures b.config.level0StopWriteThresholdOverlappingFileCount == d.level0StopWriteThresholdOverlappingFileCount
    ensures b.config.maxBytesForLevelBase == d.maxBytesForLevelBase
    ensures b.config.targetFileSizeBase == d.targetFileSizeBase
    ensures b.config.maxBytesForLevelMultiplier == d.maxBytesForLevelMultiplier
    ensures b.config.maxCompactionBytes == d.maxCompactionBytes
    ensures b.config.subLevelMaxCompactionBytes == d.subLevelMaxCompactionBytes
    ensures b.config.level0TierCompactFileNumber == d.level0TierCompactFileNumber
    ensures b.config.compactionFilterMask == d.compactionFilterMask
    ensures b.config.maxSubCompaction == d.maxSubCompaction
    ensures b.config.maxSpaceReclaimBytes == d.maxSpaceReclaimBytes
    ensures b.config.level0MaxCompactFileNumber == d.level0MaxCompactFileNumber
    ensures b.config.level0SubLevelCompactLevelCount == d.level0SubLevelCompactLevelCount
    ensures b.config.level0OverlappingSubLevelCompactLevelCount == d.level0OverlappingSubLevelCompactLevelCount
  {
    Builder(Config(
      maxBytesForLevelBase := d.maxBytesForLevelBase,
      maxBytesForLevelMultiplier := d.maxBytesForLevelMultiplier,
      maxLevel := MAX_LEVEL,
      maxCompactionBytes := d.maxCompactionBytes,
      subLevelMaxCompactionBytes := d.subLevelMaxCompactionBytes,
      level0TierCompactFileNumber := d.level0TierCompactFileNumber,
      targetFileSizeBase := d.targetFileSizeBase,
      compactionMode := COMPACTION_MODE_RANGE,
      compressionAlgorithm := DEFAULT_COMPRESSION,
      compactionFilterMask := d.compactionFilterMask,
      maxSubCompaction := d.maxSubCompaction,
      maxSpaceReclaimBytes := d.maxSpaceReclaimBytes,
      splitByStateTable := false,
      splitWeightByVnode := 0,
      level0StopWriteThresholdSubLevelNumber := d.level0StopWriteThresholdSubLevelNumber,
      level0MaxCompactFileNumber := d.level0MaxCompactFileNumber,
      level0SubLevelCompactLevelCount := d.level0SubLevelCompactLevelCount,
      level0OverlappingSubLevelCompactLevelCount := d.level0OverlappingSubLevelCompactLevelCount,
      level0StopWriteThresholdMergeIterCount := d.level0StopWriteThresholdMergeIterCount,
      level0StopWriteThresholdOverlappingFileCount := d.level0StopWriteThresholdOverlappingFileCount))
  }

  /** `Default for CompactionConfigBuilder`. */
  function Default(d: ExternalDefaults): (b: Builder)
    ensures b == New(d)
  {
    New(d)
  }

  /** `CompactionConfigBuilder::with_config`: the given config, verbatim. */
  function WithConfig(config: Config): (b: Builder)
    ensures b.config == config
  {
    Builder(config)
  }

  /** `CompactionConfigBuilder::with_opt`: `new()` followed by thirteen setters, in source order. */
  function WithOpt(d: ExternalDefaults, opt: CompactionConfigOpt): Builder
  {
    var b0 := New(d);
    var b1 := Set(b0, MaxBytesForLevelBase, U64(opt.maxBytesForLevelBase));
    var b2 := Set(b1, MaxBytesForLevelMultiplier, U64(opt.maxBytesForLevelMultiplier));
    var b3 := Set(b2, MaxCompactionBytes, U64(opt.maxCompactionBytes));
    var b4 := Set(b3, SubLevelMaxCompactionBytes, U64(opt.subLevelMaxCompactionBytes));
    var b5 := Set(b4, Level0TierCompactFileNumber, U64(opt.level0TierCompactFileNumber));
    var b6 := Set(b5, TargetFileSizeBase, U64(opt.targetFileSizeBase));
    var b7 := Set(b6, CompactionFilterMask, U32(opt.compactionFilterMask));
    var b8 := Set(b7, MaxSubCompaction, U32(opt.maxSubCompaction));
    var b9 := Set(b8, Level0StopWriteThresholdSubLevelNumber, U64(opt.level0StopWriteThresholdSubLevelNumber));
    var b10 := Set(b9, Level0SubLevelCompactLevelCount, U32(opt.level0SubLevelCompactLevelCount));
    var b11 := Set(b10, Level0OverlappingSubLevelCompactLevelCount, U32(opt.level0OverlappingSubLevelCompactLevelCount));
    var b12 := Set(b11, MaxSpaceReclaimBytes, U64(opt.maxSpaceReclaimBytes));
    Set(b12, Level0MaxCompactFileNumber, U64(opt.level0MaxCompactFileNumber))
  }

  /** `with_opt` overrides exactly the thirteen listed fields with the loader's values;
      the level count, the compaction mode, the compression list, the merge-iterator and
      overlapping-file stall thresholds and the two split settings keep what `new()` gives. */
  lemma WithOptOverridesExactly(d: ExternalDefaults, opt: CompactionConfigOpt)
    ensures var c := WithOpt(d, opt).config;
      && c.maxBytesForLevelBase == opt.maxBytesForLevelBase
      && c.maxBytesForLevelMultiplier == opt.maxBytesForLevelMultiplier
      && c.maxCompactionBytes == opt.maxCompactionBytes
      && c.subLevelMaxCompactionBytes == opt.subLevelMaxCompactionBytes
      && c.level0TierCompactFileNumber == opt.level0TierCompactFileNumber
      && c.targetFileSizeBase == opt.targetFileSizeBase
      && c.compactionFilterMask == opt.compactionFilterMask
      && c.maxSubCompaction == opt.maxSubCompaction
      && c.level0StopWriteThresholdSubLevelNumber == opt.level0StopWriteThresholdSubLevelNumber
      && c.level0SubLevelCompactLevelCount == opt.level0SubLevelCompactLevelCount
      && c.level0OverlappingSubLevelCompactLevelCount == opt.level0OverlappingSubLevelCompactLevelCount
      && c.maxSpaceReclaimBytes == opt.maxSpaceReclaimBytes
      && c.level0MaxCompactFileNumber == opt.level0MaxCompactFileNumber
    ensures var c, c0 := WithOpt(d, opt).config, New(d).config;
      && c.maxLevel == c0.maxLevel == MAX_LEVEL
      && c.compactionMode == c0.compactionMode == COMPACTION_MODE_RANGE
      && c.compressionAlgorithm == c0.compressionAlgorithm == DEFAULT_COMPRESSION
      && c.level0StopWriteThresholdMergeIterCount == c0.level0StopWriteThresholdMergeIterCount
      && c.level0StopWriteThresholdOverlappingFileCount == c0.level0StopWriteThresholdOverlappingFileCount
      && c.splitByStateTable == c0.splitByStateTable
      && c.splitWeightByVnode == c0.splitWeightByVnode
  {
  }

  /** `validate_compaction_config`: `Err(reason)` when the level-0 sub-level stall threshold
      is below one, `Ok(())` otherwise. */
  function Validate(config: Config): (r: Result<(), string>)
    ensures r.Err? <==> config.level0StopWriteThresholdSubLevelNumber < SUB_LEVEL_NUMBER_THRESHOLD_MIN
    ensures r.Err? ==>
              r.error == NatToString(config.level0StopWriteThresholdSubLevelNumber)
                         + " is too small for level0_stop_write_threshold_sub_level_number, expect >= "
                         + NatToString(SUB_LEVEL_NUMBER_THRESHOLD_MIN)
  {
    if config.level0StopWriteThresholdSubLevelNumber < SUB_LEVEL_NUMBER_THRESHOLD_MIN then
      Err(NatToString(config.level0StopWriteThresholdSubLevelNumber)
        + " is too small for level0_stop_write_threshold_sub_level_number, expect >= "
        + NatToString(SUB_LEVEL_NUMBER_THRESHOLD_MIN))
    else
      Ok(())
  }

  /** What `build` hands back: the config, and the warning it logged, if any. */
  datatype BuildOutcome = BuildOutcome(config: Config, warning: Option<string>)

  /** `CompactionConfigBuilder::build`: validation is advisory. The config is returned
      unchanged whether or not it is valid; an invalid one only adds a warning. */
  function Build(b: Builder): (r: BuildOutcome)
    ensures r.config == b.config
    ensures r.warning.Some? <==> Validate(b.config).Err?
    ensures r.warning.Some? ==> r.warning.value == "Bad compaction config: " + Validate(b.config).error
  {
    match Validate(b.config)
    case Err(reason) => BuildOutcome(b.config, Some("Bad compaction config: " + reason))
    case Ok(_) => BuildOutcome(b.config, None)
  }

  /** Setting the sub-level threshold to 0 and building logs a warning and still returns
      a config whose threshold is 0. */
  lemma ZeroSubLevelThresholdIsKept(b: Builder)
    ensures var out := Build(Set(b, Level0StopWriteThresholdSubLevelNumber, U64(0)));
      out.warning.Some? && out.config.level0StopWriteThresholdSubLevelNumber == 0
  {
    var b' := Set(b, Level0StopWriteThresholdSubLevelNumber, U64(0));
    assert Get(b'.config, Level0StopWriteThresholdSubLevelNumber) == U64(0);
  }

  /** Builders seeded from the loader's options are valid exactly when the configured
      sub-level threshold is at least one. */
  lemma WithOptValidIff(d: ExternalDefaults, opt: CompactionConfigOpt)
    ensures Validate(WithOpt(d, opt).config).Ok? <==> opt.level0StopWriteThresholdSubLevelNumber >= 1
  {
    WithOptOverridesExactly(d, opt);
  }
}
