/** The materialized-input state of a streaming aggregation (min, max, first/last value,
    string and array aggregation). Its constructor derives, from the aggregate call, the
    columns to order by and their directions, their positions in the state table, the
    kind of cache and whether the output is the first cached value. `get_output` refills
    the cache from the state table when it is out of sync and then produces the output.

    A state-table row is a sequence of datums; a cache key is kept as the projected order
    columns (the memcomparable byte encoding is not modelled). */
module MInput {
  import opened Common

  datatype AggKind = Min | Max | FirstValue | LastValue | StringAgg | ArrayAgg | OtherKind(name: string)

  datatype Direction = Ascending | Descending

  datatype NullsAre = Largest | Smallest

  datatype OrderType = OrderType(direction: Direction, nullsAre: NullsAre)

  /** `OrderType::ascending()`: ascending, nulls last. */
  const ASCENDING := OrderType(Ascending, Largest)

  /** `OrderType::descending()`: descending, nulls first. */
  const DESCENDING := OrderType(Descending, Largest)

  /** `OrderType::reverse`: flips both the direction and the position of nulls. */
  function Reverse(o: OrderType): (r: OrderType)
    ensures r.direction != o.direction && r.nullsAre != o.nullsAre
  {
    OrderType(if o.direction == Ascending then Descending else Ascending,
              if o.nullsAre == Largest then Smallest else Largest)
  }

  datatype ColumnOrder = ColumnOrder(columnIndex: nat, orderType: OrderType)

  /** The parts of an `AggCall` the state reads. */
  datatype AggCall = AggCall(kind: AggKind, argIndices: seq<nat>, columnOrders: seq<ColumnOrder>, distinct: bool)

  /** `StateTableColumnMapping::upstream_to_state_table` as a partial map. */
  type ColumnMapping = map<nat, nat>

  /** `TopNStateCache` with a capacity, or an unbounded `OrderedStateCache`. */
  datatype CacheKind = TopN(capacity: nat) | Ordered

  /** `OrderedRowSerde`: one data type and one order type per key column. */
  datatype OrderedRowSerde = OrderedRowSerde(dataTypes: seq<DataType>, orderTypes: seq<OrderType>)

  /** The ways `MaterializedInputState::new` panics. */
  datatype Panic =
    | ArgIndexOutOfBounds
    | ArgColumnNotInStateTable
    | OrderColumnNotInStateTable
    | OrderColumnNotInSchema
    | UnexpectedAggKind(kind: AggKind)

  /** Everything `new` derives; the cache itself is created from `cacheKind`. */
  datatype Layout = Layout(
    argColIndices: seq<nat>,
    stateTableArgColIndices: seq<nat>,
    orderColIndices: seq<nat>,
    stateTableOrderColIndices: seq<nat>,
    cacheKind: CacheKind,
    outputFirstValue: bool,
    cacheKeySerializer: OrderedRowSerde)

  predicate IsExtreme(kind: AggKind)
  {
    kind == Min || kind == Max
  }

  predicate NeedsArg(call: AggCall)
  {
    IsExtreme(call.kind) || call.distinct
  }

  // ---------------------------------------------------------------------------
  // The order key, as a specification
  // ---------------------------------------------------------------------------

  /** Unzips `column_orders` into indices and order types, reversing each order type for
      `last_value`. */
  function UnzipOrders(orders: seq<ColumnOrder>, reverse: bool): (r: (seq<nat>, seq<OrderType>))
    ensures |r.0| == |r.1| == |orders|
    ensures forall i :: 0 <= i < |orders| ==> r.0[i] == orders[i].columnIndex
    ensures forall i :: 0 <= i < |orders| ==>
              r.1[i] == if reverse then Reverse(orders[i].orderType) else orders[i].orderType
    decreases |orders|
  {
    if |orders| == 0 then ([], [])
    else
      var rest := UnzipOrders(orders[1..], reverse);
      var o := orders[0];
      ([o.columnIndex] + rest.0, [if reverse then Reverse(o.orderType) else o.orderType] + rest.1)
  }

  /** The order columns before the distinct or primary-key suffix. */
  function OrderPrefix(call: AggCall): (seq<nat>, seq<OrderType>)
    requires IsExtreme(call.kind) ==> |call.argIndices| > 0
  {
    if IsExtreme(call.kind) then
      ([call.argIndices[0]], [if call.kind == Min then ASCENDING else DESCENDING])
    else
      UnzipOrders(call.columnOrders, call.kind == LastValue)
  }

  function Repeat<T>(x: T, n: nat): (r: seq<T>)
    ensures |r| == n && forall i :: 0 <= i < n ==> r[i] == x
  {
    seq(n, _ => x)
  }

  /** The full order key: the prefix, then the distinct argument (if not already there)
      or every primary-key column, each ascending. */
  function OrderKey(call: AggCall, pkIndices: seq<nat>): (r: (seq<nat>, seq<OrderType>))
    requires NeedsArg(call) ==> |call.argIndices| > 0
    ensures |r.0| == |r.1|
    ensures OrderPrefix(call).0 <= r.0 && OrderPrefix(call).1 <= r.1
  {
    var (cols, types) := OrderPrefix(call);
    if call.distinct then
      if call.argIndices[0] in cols then (cols, types)
      else (cols + [call.argIndices[0]], types + [ASCENDING])
    else
      (cols + pkIndices, types + Repeat(ASCENDING, |pkIndices|))
  }

  /** `min` orders by its argument ascending, `max` descending, before anything else. */
  lemma ExtremeOrderFirst(call: AggCall, pkIndices: seq<nat>)
    requires IsExtreme(call.kind) && |call.argIndices| > 0
    ensures var (cols, types) := OrderKey(call, pkIndices);
      && |cols| > 0 && |types| > 0 && cols[0] == call.argIndices[0]
      && types[0] == (if call.kind == Min then ASCENDING else DESCENDING)
  {
  }

  /** Other kinds take the declared column orders as the prefix, reversed only for
      `last_value`. */
  lemma DeclaredOrderFirst(call: AggCall, pkIndices: seq<nat>)
    requires !IsExtreme(call.kind) && (call.distinct ==> |call.argIndices| > 0)
    ensures var (cols, types) := OrderKey(call, pkIndices);
      && |cols| >= |call.columnOrders| && |types| >= |call.columnOrders|
      && (forall i :: 0 <= i < |call.columnOrders| ==> cols[i] == call.columnOrders[i].columnIndex)
      && (forall i :: 0 <= i < |call.columnOrders| ==>
            types[i] == if call.kind == LastValue then Reverse(call.columnOrders[i].orderType)
                        else call.columnOrders[i].orderType)
  {
  }

  /** A distinct aggregate orders by its argument exactly once: it is appended, ascending,
      only when not already an order column, so no duplicate is introduced. */
  lemma DistinctAddsArgOnce(call: AggCall, pkIndices: seq<nat>)
    requires call.distinct && |call.argIndices| > 0
    ensures var (prefix, _) := OrderPrefix(call);
            var (cols, types) := OrderKey(call, pkIndices);
      && call.argIndices[0] in cols
      && (call.argIndices[0] in prefix ==> cols == prefix)
      && (call.argIndices[0] !in prefix ==> cols == prefix + [call.argIndices[0]] && types[|types| - 1] == ASCENDING)
      && (NoDuplicates(prefix) ==> NoDuplicates(cols))
  {
  }

  /** A non-distinct aggregate appends every primary-key column in order, ascending. */
  lemma NonDistinctAppendsPk(call: AggCall, pkIndices: seq<nat>)
    requires !call.distinct && (IsExtreme(call.kind) ==> |call.argIndices| > 0)
    ensures var (prefix, prefixTypes) := OrderPrefix(call);
            var (cols, types) := OrderKey(call, pkIndices);
      && |cols| == |prefix| + |pkIndices|
      && cols == prefix + pkIndices
      && types[..|prefixTypes|] == prefixTypes
      && (forall i :: |prefixTypes| <= i < |types| ==> types[i] == ASCENDING)
  {
  }

  // ---------------------------------------------------------------------------
  // Column mapping
  // ---------------------------------------------------------------------------

  /** Maps every index through `mapping`; `None` if any index has no state-table column. */
  function MapColumns(mapping: ColumnMapping, indices: seq<nat>): (r: Option<seq<nat>>)
    ensures r.Some? <==> forall i :: 0 <= i < |indices| ==> indices[i] in mapping
    ensures r.Some? ==> |r.value| == |indices|
                        && forall i :: 0 <= i < |indices| ==> r.value[i] == mapping[indices[i]]
    decreases |indices|
  {
    if |indices| == 0 then Some([])
    else if indices[0] !in mapping then None
    else match MapColumns(mapping, indices[1..])
      case None => None
      case Some(rest) => Some([mapping[indices[0]]] + rest)
  }

  predicate ExpectedKind(kind: AggKind)
  {
    kind.Min? || kind.Max? || kind.FirstValue? || kind.LastValue? || kind.StringAgg? || kind.ArrayAgg?
  }

  /** Every index has an entry in the state-table column mapping. */
  predicate AllMapped(mapping: ColumnMapping, indices: seq<nat>)
  {
    forall i :: 0 <= i < |indices| ==> indices[i] in mapping
  }

  /** Every index is a position of a schema with `n` fields. */
  predicate AllBelow(indices: seq<nat>, n: nat)
  {
    forall i :: 0 <= i < |indices| ==> indices[i] < n
  }

  /** The order key as `MaterializedInputState::new` builds it: the kind's own order
      columns, then the distinct argument column or the primary key. */
  method BuildOrderKey(call: AggCall, pkIndices: seq<nat>) returns (orderColIndices: seq<nat>, orderTypes: seq<OrderType>)
    requires NeedsArg(call) ==> |call.argIndices| > 0
    ensures (orderColIndices, orderTypes) == OrderKey(call, pkIndices)
  {
    var prefix := OrderPrefix(call);
    orderColIndices, orderTypes := prefix.0, prefix.1;
    if call.distinct {
      if call.argIndices[0] !in orderColIndices {
        orderColIndices := orderColIndices + [call.argIndices[0]];
        orderTypes := orderTypes + [ASCENDING];
      }
    } else {
      orderColIndices := orderColIndices + pkIndices;
      orderTypes := orderTypes + Repeat(ASCENDING, |pkIndices|);
    }
  }

  /** The panic `MaterializedInputState::new` reaches first, if any: a missing argument
      column, an argument column or an order column without a state-table column, an
      order column outside the input schema, and only then an unexpected kind. */
  function FirstPanic(call: AggCall, pkIndices: seq<nat>, mapping: ColumnMapping,
                      inputSchema: seq<DataType>): Option<Panic>
  {
    if NeedsArg(call) && |call.argIndices| == 0 then Some(ArgIndexOutOfBounds)
    else if !AllMapped(mapping, call.argIndices) then Some(ArgColumnNotInStateTable)
    else if !AllMapped(mapping, OrderKey(call, pkIndices).0) then Some(OrderColumnNotInStateTable)
    else if !AllBelow(OrderKey(call, pkIndices).0, |inputSchema|) then Some(OrderColumnNotInSchema)
    else if !ExpectedKind(call.kind) then Some(UnexpectedAggKind(call.kind))
    else None
  }

  /** `MaterializedInputState::new`, up to creating the cache. Each panic of the source is
      an `Err`, and it is the one the source reaches first. */
  method NewLayout(call: AggCall, pkIndices: seq<nat>, mapping: ColumnMapping,
                   extremeCacheSize: nat, inputSchema: seq<DataType>)
    returns (r: Result<Layout, Panic>)
    ensures r.Err? <==> FirstPanic(call, pkIndices, mapping, inputSchema).Some?
    ensures r.Err? ==> r.error == FirstPanic(call, pkIndices, mapping, inputSchema).value
    ensures !ExpectedKind(call.kind) ==> r.Err?
    ensures r.Ok? ==> (forall i :: 0 <= i < |call.argIndices| ==> call.argIndices[i] in mapping)
    ensures (NeedsArg(call) ==> |call.argIndices| > 0) && r.Ok? ==>
              var (cols, types) := OrderKey(call, pkIndices);
              var l := r.value;
              && ExpectedKind(call.kind)
              && l.argColIndices == call.argIndices
              && l.orderColIndices == cols
              && l.cacheKeySerializer.orderTypes == types
              && |l.stateTableArgColIndices| == |call.argIndices|
              && (forall i :: 0 <= i < |call.argIndices| ==>
                    l.stateTableArgColIndices[i] == mapping[call.argIndices[i]])
              && |l.stateTableOrderColIndices| == |cols|
              && (forall i :: 0 <= i < |cols| ==>
                    cols[i] in mapping && l.stateTableOrderColIndices[i] == mapping[cols[i]])
              && |l.cacheKeySerializer.dataTypes| == |cols|
              && (forall i :: 0 <= i < |cols| ==>
                    cols[i] < |inputSchema| && l.cacheKeySerializer.dataTypes[i] == inputSchema[cols[i]])
              && l.cacheKind == (if IsExtreme(call.kind) || call.kind == FirstValue || call.kind == LastValue
                                 then TopN(extremeCacheSize) else Ordered)
              && l.outputFirstValue == (IsExtreme(call.kind) || call.kind == FirstValue || call.kind == LastValue)
  {
    if IsExtreme(call.kind) && |call.argIndices| == 0 {
      return Err(ArgIndexOutOfBounds);
    }
    if call.distinct && |call.argIndices| == 0 {
      return Err(ArgIndexOutOfBounds);
    }
    var orderColIndices, orderTypes := BuildOrderKey(call, pkIndices);

    var stateTableArgs := MapColumns(mapping, call.argIndices);
    if stateTableArgs.None? {
      assert !AllMapped(mapping, call.argIndices);
      return Err(ArgColumnNotInStateTable);
    }
    var stateTableOrder := MapColumns(mapping, orderColIndices);
    if stateTableOrder.None? {
      assert !AllMapped(mapping, orderColIndices);
      return Err(OrderColumnNotInStateTable);
    }
    if exists i :: 0 <= i < |orderColIndices| && orderColIndices[i] >= |inputSchema| {
      assert !AllBelow(orderColIndices, |inputSchema|);
      return Err(OrderColumnNotInSchema);
    }
    assert FirstPanic(call, pkIndices, mapping, inputSchema)
           == if ExpectedKind(call.kind) then None else Some(UnexpectedAggKind(call.kind));
    var keyTypes := seq(|orderColIndices|, i requires 0 <= i < |orderColIndices| => inputSchema[orderColIndices[i]]);

    var cacheKind;
    match call.kind {
      case Min => cacheKind := TopN(extremeCacheSize);
      case Max => cacheKind := TopN(extremeCacheSize);
      case FirstValue => cacheKind := TopN(extremeCacheSize);
      case LastValue => cacheKind := TopN(extremeCacheSize);
      case StringAgg => cacheKind := Ordered;
      case ArrayAgg => cacheKind := Ordered;
      case OtherKind(_) => return Err(UnexpectedAggKind(call.kind));
    }
    var outputFirstValue := IsExtreme(call.kind) || call.kind == FirstValue || call.kind == LastValue;
    r := Ok(Layout(call.argIndices, stateTableArgs.value, orderColIndices, stateTableOrder.value,
                   cacheKind, outputFirstValue, OrderedRowSerde(keyTypes, orderTypes)));
  }

  // ---------------------------------------------------------------------------
  // The cache and get_output
  // ---------------------------------------------------------------------------

  /** A cache entry: the order-column values (the key) and the argument values. */
  datatype CacheRow = CacheRow(key: seq<Datum>, value: seq<Datum>)

  /** What `get_output` produces: the first cached value for the extreme and first/last
      kinds, otherwise the cached values in cache order, which the aggregate function
      then consumes. */
  datatype AggOutput = FirstCached(first: Option<seq<Datum>>) | AggregateInput(values: seq<seq<Datum>>)

  function Project(row: seq<Datum>, indices: seq<nat>): (r: seq<Datum>)
    requires forall i :: 0 <= i < |indices| ==> indices[i] < |row|
    ensures |r| == |indices| && forall i :: 0 <= i < |indices| ==> r[i] == row[indices[i]]
  {
    seq(|indices|, i requires 0 <= i < |indices| => row[indices[i]])
  }

  /** Every state-table row has the columns the layout reads. */
  predicate RowFits(l: Layout, row: seq<Datum>)
  {
    && (forall i :: 0 <= i < |l.stateTableOrderColIndices| ==> l.stateTableOrderColIndices[i] < |row|)
    && (forall i :: 0 <= i < |l.stateTableArgColIndices| ==> l.stateTableArgColIndices[i] < |row|)
  }

  function CacheRowOf(l: Layout, row: seq<Datum>): CacheRow
    requires RowFits(l, row)
  {
    CacheRow(Project(row, l.stateTableOrderColIndices), Project(row, l.stateTableArgColIndices))
  }

  /** The cache rows built from the given state-table rows, in order. */
  function CacheRows(l: Layout, rows: seq<seq<Datum>>): (r: seq<CacheRow>)
    requires forall i :: 0 <= i < |rows| ==> RowFits(l, rows[i])
    ensures |r| == |rows| && forall i :: 0 <= i < |rows| ==> r[i] == CacheRowOf(l, rows[i])
    decreases |rows|
  {
    if |rows| == 0 then [] else CacheRows(l, rows[..|rows| - 1]) + [CacheRowOf(l, rows[|rows| - 1])]
  }

  /** How many rows a refill reads: at most the filler's capacity (all for an unbounded cache). */
  function FillCount(kind: CacheKind, available: nat): (n: nat)
    ensures n <= available
    ensures kind.TopN? ==> n <= kind.capacity
    ensures n == available || (kind.TopN? && n == kind.capacity)
  {
    match kind
    case TopN(capacity) => if available <= capacity then available else capacity
    case Ordered => available
  }

  function Values(entries: seq<CacheRow>): (r: seq<seq<Datum>>)
    ensures |r| == |entries| && forall i :: 0 <= i < |entries| ==> r[i] == entries[i].value
  {
    seq(|entries|, i requires 0 <= i < |entries| => entries[i].value)
  }

  /** The cache behind the state. A fresh cache is not synced. */
  class AggStateCache {
    const kind: CacheKind
    var synced: bool
    var entries: seq<CacheRow>

    constructor (kind: CacheKind)
      ensures this.kind == kind && !synced && entries == []
    {
      this.kind := kind;
      synced := false;
      entries := [];
    }
  }

  class MaterializedInputState {
    const layout: Layout
    const cache: AggStateCache

    constructor (layout: Layout)
      ensures this.layout == layout && fresh(cache)
      ensures cache.kind == layout.cacheKind && !cache.synced && cache.entries == []
    {
      this.layout := layout;
      cache := new AggStateCache(layout.cacheKind);
    }

    /** `get_output` over the rows of this group in the state table, in key order. An
        unsynced cache is refilled with at most its capacity of those rows and marked
        synced; a synced cache is used as it is. */
    method GetOutput(stateRows: seq<seq<Datum>>) returns (out: AggOutput)
      requires forall i :: 0 <= i < |stateRows| ==> RowFits(layout, stateRows[i])
      requires cache.kind == layout.cacheKind
      modifies cache
      ensures cache.synced
      ensures old(cache.synced) ==> cache.entries == old(cache.entries)
      ensures !old(cache.synced) ==>
                cache.entries == CacheRows(layout, stateRows[..FillCount(cache.kind, |stateRows|)])
      ensures out == if layout.outputFirstValue
                     then FirstCached(if cache.entries == [] then None else Some(cache.entries[0].value))
                     else AggregateInput(Values(cache.entries))
    {
      if !cache.synced {
        // begin_syncing: the filler starts from an empty cache
        cache.entries := [];
        var n := FillCount(cache.kind, |stateRows|);
        var i := 0;
        while i < n
          invariant 0 <= i <= n
          invariant cache.entries == CacheRows(layout, stateRows[..i])
        {
          assert stateRows[..i + 1][..i] == stateRows[..i];
          cache.entries := cache.entries + [CacheRowOf(layout, stateRows[i])];
          i := i + 1;
        }
        // finish
        cache.synced := true;
      }
      if layout.outputFirstValue {
        out := FirstCached(if cache.entries == [] then None else Some(cache.entries[0].value));
      } else {
        out := AggregateInput(Values(cache.entries));
      }
    }
  }

  /** `MaterializedInputState::new`: the layout, then a fresh cache of the chosen kind. */
  method New(call: AggCall, pkIndices: seq<nat>, mapping: ColumnMapping,
             extremeCacheSize: nat, inputSchema: seq<DataType>)
    returns (r: Result<MaterializedInputState, Panic>)
    ensures r.Ok? ==> fresh(r.value) && fresh(r.value.cache) && !r.value.cache.synced
    ensures r.Ok? ==> r.value.cache.kind == r.value.layout.cacheKind
  {
    var layout := NewLayout(call, pkIndices, mapping, extremeCacheSize, inputSchema);
    match layout {
      case Err(p) => r := Err(p);
      case Ok(l) =>
        var state := new MaterializedInputState(l);
        r := Ok(state);
    }
  }
}
