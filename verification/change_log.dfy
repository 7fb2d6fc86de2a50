/** The per-table change log of the storage SDK and its protobuf form. A log is a list of
    entries; each entry names the epochs it covers and holds one shard per key-space
    partition, pairing a vnode bitmap with the new-value and old-value file lists.

    The file handle type `S` (`SstableInfo`) is the same on both sides and is only copied.
    The bitmap type `B` and its protobuf form `P` are opaque; their conversions are
    passed in as `toPb` (`Bitmap::to_protobuf`) and `fromPb` (`Bitmap::from`). */
module ChangeLog {
  import opened Common

  datatype ChangeLogShard<S, B> = ChangeLogShard(newValue: seq<S>, oldValue: seq<S>, vnodeBitmap: B)

  datatype EpochNewChangeLog<S, B> = EpochNewChangeLog(epochs: seq<u64>, shards: seq<ChangeLogShard<S, B>>)

  datatype TableChangeLog<S, B> = TableChangeLog(entries: seq<EpochNewChangeLog<S, B>>)

  /** `PbChangeLogShard`: the bitmap is an optional message field on the wire. */
  datatype PbChangeLogShard<S, P> = PbChangeLogShard(newValue: seq<S>, oldValue: seq<S>, vnodeBitmap: Option<P>)

  datatype PbEpochNewChangeLog<S, P> = PbEpochNewChangeLog(epochs: seq<u64>, shards: seq<PbChangeLogShard<S, P>>)

  datatype PbTableChangeLog<S, P> = PbTableChangeLog(changeLogs: seq<PbEpochNewChangeLog<S, P>>)

  // ---------------------------------------------------------------------------
  // Encoding (`TableChangeLog::to_protobuf`)
  // ---------------------------------------------------------------------------

  function ShardToPb<S, B, P>(toPb: B -> P, shard: ChangeLogShard<S, B>): (r: PbChangeLogShard<S, P>)
    ensures r.newValue == shard.newValue && r.oldValue == shard.oldValue
    ensures r.vnodeBitmap == Some(toPb(shard.vnodeBitmap))
  {
    PbChangeLogShard(shard.newValue, shard.oldValue, Some(toPb(shard.vnodeBitmap)))
  }

  /** The shards of one entry, converted one by one, in order. */
  function ShardsToPb<S, B, P>(toPb: B -> P, shards: seq<ChangeLogShard<S, B>>): (r: seq<PbChangeLogShard<S, P>>)
    ensures |r| == |shards|
    ensures forall i :: 0 <= i < |r| ==> r[i] == ShardToPb(toPb, shards[i])
    decreases |shards|
  {
    if |shards| == 0 then [] else [ShardToPb(toPb, shards[0])] + ShardsToPb(toPb, shards[1..])
  }

  function EntryToPb<S, B, P>(toPb: B -> P, entry: EpochNewChangeLog<S, B>): (r: PbEpochNewChangeLog<S, P>)
    ensures r.epochs == entry.epochs
    ensures |r.shards| == |entry.shards|
  {
    PbEpochNewChangeLog(entry.epochs, ShardsToPb(toPb, entry.shards))
  }

  /** The entries of a log, converted one by one, in order. */
  function EntriesToPb<S, B, P>(toPb: B -> P, entries: seq<EpochNewChangeLog<S, B>>): (r: seq<PbEpochNewChangeLog<S, P>>)
    ensures |r| == |entries|
    ensures forall i :: 0 <= i < |r| ==> r[i] == EntryToPb(toPb, entries[i])
    decreases |entries|
  {
    if |entries| == 0 then [] else [EntryToPb(toPb, entries[0])] + EntriesToPb(toPb, entries[1..])
  }

  /** `TableChangeLog::to_protobuf`: one protobuf entry per entry, in order. */
  function ToProtobuf<S, B, P>(toPb: B -> P, log: TableChangeLog<S, B>): (r: PbTableChangeLog<S, P>)
    ensures |r.changeLogs| == |log.entries|
    ensures forall i :: 0 <= i < |log.entries| ==> r.changeLogs[i] == EntryToPb(toPb, log.entries[i])
  {
    PbTableChangeLog(EntriesToPb(toPb, log.entries))
  }

  // ---------------------------------------------------------------------------
  // Decoding (`TableChangeLog::from_protobuf`)
  // ---------------------------------------------------------------------------

  /** Decoding unwraps every shard's bitmap, so it needs all of them present. */
  predicate AllBitmapsPresent<S, P>(pb: PbTableChangeLog<S, P>)
  {
    forall i, j :: 0 <= i < |pb.changeLogs| && 0 <= j < |pb.changeLogs[i].shards| ==>
      pb.changeLogs[i].shards[j].vnodeBitmap.Some?
  }

  predicate ShardsHaveBitmaps<S, P>(shards: seq<PbChangeLogShard<S, P>>)
  {
    forall j :: 0 <= j < |shards| ==> shards[j].vnodeBitmap.Some?
  }

  function ShardFromPb<S, B, P>(fromPb: P -> B, shard: PbChangeLogShard<S, P>): (r: ChangeLogShard<S, B>)
    requires shard.vnodeBitmap.Some?
    ensures r.newValue == shard.newValue && r.oldValue == shard.oldValue
    ensures r.vnodeBitmap == fromPb(shard.vnodeBitmap.value)
  {
    ChangeLogShard(shard.newValue, shard.oldValue, fromPb(shard.vnodeBitmap.value))
  }

  function ShardsFromPb<S, B, P>(fromPb: P -> B, shards: seq<PbChangeLogShard<S, P>>): (r: seq<ChangeLogShard<S, B>>)
    requires ShardsHaveBitmaps(shards)
    ensures |r| == |shards|
    ensures forall i :: 0 <= i < |r| ==> r[i] == ShardFromPb(fromPb, shards[i])
    decreases |shards|
  {
    if |shards| == 0 then [] else [ShardFromPb(fromPb, shards[0])] + ShardsFromPb(fromPb, shards[1..])
  }

  function EntryFromPb<S, B, P>(fromPb: P -> B, entry: PbEpochNewChangeLog<S, P>): (r: EpochNewChangeLog<S, B>)
    requires ShardsHaveBitmaps(entry.shards)
    ensures r.epochs == entry.epochs
    ensures |r.shards| == |entry.shards|
  {
    EpochNewChangeLog(entry.epochs, ShardsFromPb(fromPb, entry.shards))
  }

  function EntriesFromPb<S, B, P>(fromPb: P -> B, entries: seq<PbEpochNewChangeLog<S, P>>): (r: seq<EpochNewChangeLog<S, B>>)
    requires forall i :: 0 <= i < |entries| ==> ShardsHaveBitmaps(entries[i].shards)
    ensures |r| == |entries|
    ensures forall i :: 0 <= i < |r| ==> r[i] == EntryFromPb(fromPb, entries[i])
    decreases |entries|
  {
    if |entries| == 0 then [] else [EntryFromPb(fromPb, entries[0])] + EntriesFromPb(fromPb, entries[1..])
  }

  /** `TableChangeLog::from_protobuf`: one entry per protobuf entry, in order. */
  function FromProtobuf<S, B, P>(fromPb: P -> B, pb: PbTableChangeLog<S, P>): (r: TableChangeLog<S, B>)
    requires AllBitmapsPresent(pb)
    ensures |r.entries| == |pb.changeLogs|
    ensures forall i :: 0 <= i < |pb.changeLogs| ==> r.entries[i] == EntryFromPb(fromPb, pb.changeLogs[i])
  {
    TableChangeLog(EntriesFromPb(fromPb, pb.changeLogs))
  }

  // ---------------------------------------------------------------------------
  // Properties
  // ---------------------------------------------------------------------------

  /** Encoding keeps the number and order of entries, copies each entry's epochs and each
      shard's file lists verbatim, keeps the shard order, and always sets the bitmap. */
  lemma ToProtobufShape<S, B, P>(toPb: B -> P, log: TableChangeLog<S, B>)
    ensures var pb := ToProtobuf(toPb, log);
      && |pb.changeLogs| == |log.entries|
      && AllBitmapsPresent(pb)
      && (forall i :: 0 <= i < |pb.changeLogs| ==>
            && pb.changeLogs[i].epochs == log.entries[i].epochs
            && |pb.changeLogs[i].shards| == |log.entries[i].shards|)
      && (forall i, j :: 0 <= i < |pb.changeLogs| && 0 <= j < |pb.changeLogs[i].shards| ==>
            && pb.changeLogs[i].shards[j].newValue == log.entries[i].shards[j].newValue
            && pb.changeLogs[i].shards[j].oldValue == log.entries[i].shards[j].oldValue
            && pb.changeLogs[i].shards[j].vnodeBitmap == Some(toPb(log.entries[i].shards[j].vnodeBitmap)))
  {
  }

  lemma {:induction false} ShardsRoundTrip<S, B, P>(toPb: B -> P, fromPb: P -> B, shards: seq<ChangeLogShard<S, B>>)
    requires forall b :: fromPb(toPb(b)) == b
    ensures ShardsHaveBitmaps(ShardsToPb(toPb, shards))
    ensures ShardsFromPb(fromPb, ShardsToPb(toPb, shards)) == shards
    decreases |shards|
  {
    if |shards| > 0 {
      ShardsRoundTrip(toPb, fromPb, shards[1..]);
      assert ShardsToPb(toPb, shards)[1..] == ShardsToPb(toPb, shards[1..]);
    }
  }

  lemma {:induction false} EntriesRoundTrip<S, B, P>(toPb: B -> P, fromPb: P -> B, entries: seq<EpochNewChangeLog<S, B>>)
    requires forall b :: fromPb(toPb(b)) == b
    ensures forall i :: 0 <= i < |entries| ==> ShardsHaveBitmaps(EntriesToPb(toPb, entries)[i].shards)
    ensures EntriesFromPb(fromPb, EntriesToPb(toPb, entries)) == entries
    decreases |entries|
  {
    if |entries| > 0 {
      EntriesRoundTrip(toPb, fromPb, entries[1..]);
      ShardsRoundTrip(toPb, fromPb, entries[0].shards);
      assert EntriesToPb(toPb, entries)[1..] == EntriesToPb(toPb, entries[1..]);
    }
  }

  /** Decoding an encoded log gives the log back, provided the bitmap survives its own
      protobuf round trip. */
  lemma RoundTrip<S, B, P>(toPb: B -> P, fromPb: P -> B, log: TableChangeLog<S, B>)
    requires forall b :: fromPb(toPb(b)) == b
    ensures AllBitmapsPresent(ToProtobuf(toPb, log))
    ensures FromProtobuf(fromPb, ToProtobuf(toPb, log)) == log
  {
    EntriesRoundTrip(toPb, fromPb, log.entries);
  }

  lemma {:induction false} ShardsRoundTripFromWire<S, B, P>(toPb: B -> P, fromPb: P -> B, shards: seq<PbChangeLogShard<S, P>>)
    requires forall p :: toPb(fromPb(p)) == p
    requires ShardsHaveBitmaps(shards)
    ensures ShardsToPb(toPb, ShardsFromPb(fromPb, shards)) == shards
    decreases |shards|
  {
    if |shards| > 0 {
      ShardsRoundTripFromWire(toPb, fromPb, shards[1..]);
      assert ShardsFromPb(fromPb, shards)[1..] == ShardsFromPb(fromPb, shards[1..]);
    }
  }

  lemma {:induction false} EntriesRoundTripFromWire<S, B, P>(toPb: B -> P, fromPb: P -> B, entries: seq<PbEpochNewChangeLog<S, P>>)
    requires forall p :: toPb(fromPb(p)) == p
    requires forall i :: 0 <= i < |entries| ==> ShardsHaveBitmaps(entries[i].shards)
    ensures EntriesToPb(toPb, EntriesFromPb(fromPb, entries)) == entries
    decreases |entries|
  {
    if |entries| > 0 {
      EntriesRoundTripFromWire(toPb, fromPb, entries[1..]);
      ShardsRoundTripFromWire(toPb, fromPb, entries[0].shards);
      assert EntriesFromPb(fromPb, entries)[1..] == EntriesFromPb(fromPb, entries[1..]);
    }
  }

  /** The other direction: a wire log whose bitmaps are all present is reproduced by
      decoding and re-encoding, provided the bitmap conversion is inverse that way too. */
  lemma RoundTripFromWire<S, B, P>(toPb: B -> P, fromPb: P -> B, pb: PbTableChangeLog<S, P>)
    requires forall p :: toPb(fromPb(p)) == p
    requires AllBitmapsPresent(pb)
    ensures ToProtobuf(toPb, FromProtobuf(fromPb, pb)) == pb
  {
    EntriesRoundTripFromWire(toPb, fromPb, pb.changeLogs);
  }
}
