/** The epoch-watermarked cache of the streaming engine. `ManagedLruCache` wraps an
    estimated-size LRU cache whose entries carry the epoch in which they were last touched,
    and evicts by a watermark epoch that the global memory manager publishes through a
    shared counter.

    The inner cache is modelled by its entries (key to value and touch epoch) and its
    current epoch; its eviction, `evict_by_epoch(e)`, drops exactly the entries touched
    before `e` (see `EvictByEpoch`). */
module ManagedLru {
  import opened Common

  /** The shared `Arc<AtomicU64>`: written by the memory manager, only loaded here. */
  class WatermarkEpoch {
    var value: u64

    constructor (initial: u64)
      ensures value == initial
    {
      value := initial;
    }
  }

  /** Labels of the eviction gauge (`MetricsInfo`). */
  datatype MetricsInfo = MetricsInfo(tableId: string, actorId: string)

  /** How the inner cache was created: which hasher and allocator it uses. */
  datatype InnerKind = Unbounded | UnboundedWithHasher | UnboundedWithHasherIn

  datatype CacheEntry<V> = CacheEntry(value: V, epoch: u64)

  /** `evict_by_epoch(e)` of the inner cache: keeps exactly the entries touched at or after `e`. */
  function EvictByEpoch<K, V>(entries: map<K, CacheEntry<V>>, e: u64): (r: map<K, CacheEntry<V>>)
    ensures forall k :: k in r ==> k in entries && entries[k].epoch >= e && r[k] == entries[k]
    ensures forall k :: k in entries && entries[k].epoch >= e ==> k in r
  {
    map k | k in entries && entries[k].epoch >= e :: entries[k]
  }

  /** The threshold `evict_except_cur_epoch` uses: the watermark, clamped to the current epoch. */
  function ExceptCurEpochThreshold(watermark: u64, currentEpoch: u64): (t: u64)
    ensures t <= watermark && t <= currentEpoch
    ensures t == watermark || t == currentEpoch
  {
    if watermark <= currentEpoch then watermark else currentEpoch
  }

  /** Entries touched in the current epoch survive `evict_except_cur_epoch`, however far
      the watermark has advanced. */
  lemma CurrentEpochSurvives<K, V>(entries: map<K, CacheEntry<V>>, watermark: u64, currentEpoch: u64, k: K)
    requires k in entries && entries[k].epoch >= currentEpoch
    ensures k in EvictByEpoch(entries, ExceptCurEpochThreshold(watermark, currentEpoch))
  {
  }

  /** Eviction with a lower threshold keeps more: what it removes is a subset of what a
      higher threshold removes. */
  lemma EvictMonotone<K, V>(entries: map<K, CacheEntry<V>>, low: u64, high: u64)
    requires low <= high
    ensures EvictByEpoch(entries, high).Keys <= EvictByEpoch(entries, low).Keys
    ensures entries.Keys - EvictByEpoch(entries, low).Keys <= entries.Keys - EvictByEpoch(entries, high).Keys
  {
  }

  /** For the same state, `evict_except_cur_epoch` removes a subset of what `evict` removes. */
  lemma ExceptCurEpochRemovesLess<K, V>(entries: map<K, CacheEntry<V>>, watermark: u64, currentEpoch: u64)
    ensures var kept := EvictByEpoch(entries, ExceptCurEpochThreshold(watermark, currentEpoch)).Keys;
            entries.Keys - kept <= entries.Keys - EvictByEpoch(entries, watermark).Keys
  {
    EvictMonotone(entries, ExceptCurEpochThreshold(watermark, currentEpoch), watermark);
  }

  class ManagedLruCache<K(==), V> {
    /** The inner cache: entries with their touch epoch, and the epoch it is in. */
    var entries: map<K, CacheEntry<V>>
    var currentEpoch: u64
    const innerKind: InnerKind
    const watermarkEpoch: WatermarkEpoch
    const metricsInfo: Option<MetricsInfo>
    /** Every value set on the evicted-watermark gauge, oldest first, as epochs (the gauge
        itself shows their physical time). */
    var reportedWatermarks: seq<u64>

    /** `new_unbounded`: no metrics. */
    constructor NewUnbounded(watermarkEpoch: WatermarkEpoch)
      ensures this.watermarkEpoch == watermarkEpoch && metricsInfo.None?
      ensures innerKind == Unbounded && entries == map[] && currentEpoch == 0
      ensures reportedWatermarks == []
    {
      this.watermarkEpoch := watermarkEpoch;
      metricsInfo := None;
      innerKind := Unbounded;
      entries := map[];
      currentEpoch := 0;
      reportedWatermarks := [];
    }

    /** `new_unbounded_with_metrics`. */
    constructor NewUnboundedWithMetrics(watermarkEpoch: WatermarkEpoch, metricsInfo: MetricsInfo)
      ensures this.watermarkEpoch == watermarkEpoch && this.metricsInfo == Some(metricsInfo)
      ensures innerKind == Unbounded && entries == map[] && currentEpoch == 0
      ensures reportedWatermarks == []
    {
      this.watermarkEpoch := watermarkEpoch;
      this.metricsInfo := Some(metricsInfo);
      innerKind := Unbounded;
      entries := map[];
      currentEpoch := 0;
      reportedWatermarks := [];
    }

    /** `new_with_hasher_in`: a caller-chosen hasher and allocator. */
    constructor NewWithHasherIn(watermarkEpoch: WatermarkEpoch, metricsInfo: MetricsInfo)
      ensures this.watermarkEpoch == watermarkEpoch && this.metricsInfo == Some(metricsInfo)
      ensures innerKind == UnboundedWithHasherIn && entries == map[] && currentEpoch == 0
      ensures reportedWatermarks == []
    {
      this.watermarkEpoch := watermarkEpoch;
      this.metricsInfo := Some(metricsInfo);
      innerKind := UnboundedWithHasherIn;
      entries := map[];
      currentEpoch := 0;
      reportedWatermarks := [];
    }

    /** `new_with_hasher`: a caller-chosen hasher, the global allocator. */
    constructor NewWithHasher(watermarkEpoch: WatermarkEpoch, metricsInfo: MetricsInfo)
      ensures this.watermarkEpoch == watermarkEpoch && this.metricsInfo == Some(metricsInfo)
      ensures innerKind == UnboundedWithHasher && entries == map[] && currentEpoch == 0
      ensures reportedWatermarks == []
    {
      this.watermarkEpoch := watermarkEpoch;
      this.metricsInfo := Some(metricsInfo);
      innerKind := UnboundedWithHasher;
      entries := map[];
      currentEpoch := 0;
      reportedWatermarks := [];
    }

    /** Inner `update_epoch`, reached through `DerefMut`. */
    method UpdateEpoch(epoch: u64)
      modifies this
      ensures currentEpoch == epoch
      ensures entries == old(entries) && reportedWatermarks == old(reportedWatermarks)
    {
      currentEpoch := epoch;
    }

    /** Inner `put`, reached through `DerefMut`: the entry is touched in the current epoch. */
    method Put(k: K, v: V)
      modifies this
      ensures entries == old(entries)[k := CacheEntry(v, currentEpoch)]
      ensures currentEpoch == old(currentEpoch) && reportedWatermarks == old(reportedWatermarks)
    {
      entries := entries[k := CacheEntry(v, currentEpoch)];
    }

    /** `report_evicted_watermark`: sets the gauge only when metrics are configured. */
    method ReportEvictedWatermark(epoch: u64)
      modifies this
      ensures reportedWatermarks == old(reportedWatermarks) + (if metricsInfo.Some? then [epoch] else [])
      ensures entries == old(entries) && currentEpoch == old(currentEpoch)
    {
      if metricsInfo.Some? {
        reportedWatermarks := reportedWatermarks + [epoch];
      }
    }

    /** `evict`: evicts everything touched before the current watermark and reports that
        watermark. The shared counter is only read. */
    method Evict()
      modifies this
      ensures entries == EvictByEpoch(old(entries), watermarkEpoch.value)
      ensures reportedWatermarks == old(reportedWatermarks)
                                    + (if metricsInfo.Some? then [watermarkEpoch.value] else [])
      ensures currentEpoch == old(currentEpoch)
      ensures watermarkEpoch.value == old(watermarkEpoch.value)
    {
      var epoch := watermarkEpoch.value;
      entries := EvictByEpoch(entries, epoch);
      ReportEvictedWatermark(epoch);
    }

    /** `evict_except_cur_epoch`: as `evict`, with the watermark clamped to the current
        epoch, so everything touched in the current epoch stays. */
    method EvictExceptCurEpoch()
      modifies this
      ensures entries == EvictByEpoch(old(entries), ExceptCurEpochThreshold(watermarkEpoch.value, currentEpoch))
      ensures forall k :: k in old(entries) && old(entries)[k].epoch == currentEpoch ==> k in entries
      ensures entries.Keys <= old(entries).Keys
      ensures old(entries).Keys - entries.Keys <= old(entries).Keys - EvictByEpoch(old(entries), watermarkEpoch.value).Keys
      ensures reportedWatermarks == old(reportedWatermarks)
                                    + (if metricsInfo.Some? then [ExceptCurEpochThreshold(watermarkEpoch.value, currentEpoch)] else [])
      ensures currentEpoch == old(currentEpoch)
      ensures watermarkEpoch.value == old(watermarkEpoch.value)
    {
      var epoch := watermarkEpoch.value;
      epoch := if epoch <= currentEpoch then epoch else currentEpoch;
      ExceptCurEpochRemovesLess(entries, watermarkEpoch.value, currentEpoch);
      entries := EvictByEpoch(entries, epoch);
      ReportEvictedWatermark(epoch);
    }
  }
}
