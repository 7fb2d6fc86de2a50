/** The vocabulary of the storage event handler: the events sent to its loop, their debug
    rendering, the guard that deregisters a local read version when it is released, and
    the read-only view of the read-version mapping.

    Foreign payloads appear as follows. A one-shot reply sender is a `ReplyHandle` (its
    identity only). An immutable memtable and the local seal options are carried only
    as their `Debug` rendering. The vnode bitmap is a sequence of bits. */
module EventHandler {
  import opened Common

  type LocalInstanceId = u64

  datatype TableId = TableId(tableId: u32)

  /** Identity of a one-shot reply channel. */
  datatype ReplyHandle = ReplyHandle(id: nat)

  /** An `ImmutableMemtable`, represented by its `Debug` output. */
  datatype ImmutableMemtable = ImmutableMemtable(debugRepr: string)

  /** `SealCurrentEpochOptions`, represented by its `Debug` output. */
  datatype SealCurrentEpochOptions = SealCurrentEpochOptions(debugRepr: string)

  datatype HummockEvent =
    | BufferMayFlush
    | AwaitSyncEpoch(newSyncEpoch: u64, syncResultSender: ReplyHandle)
    | Clear(clearSender: ReplyHandle, prevEpoch: u64)
    | Shutdown
    | ImmToUploader(imm: ImmutableMemtable)
    | SealEpoch(epoch: u64, isCheckpoint: bool)
    | LocalSealEpoch(instanceId: LocalInstanceId, tableId: TableId, epoch: u64, opts: SealCurrentEpochOptions)
    | FlushEvent(flushSender: ReplyHandle)
    | RegisterReadVersion(tableId: TableId, newReadVersionSender: ReplyHandle, isReplicated: bool, vnodes: seq<bool>)
    | DestroyReadVersion(tableId: TableId, instanceId: LocalInstanceId)

  // ---------------------------------------------------------------------------
  // Debug rendering
  // ---------------------------------------------------------------------------

  /** The name of each variant, as written in the source. */
  function VariantName(e: HummockEvent): string
  {
    match e
    case BufferMayFlush => "BufferMayFlush"
    case AwaitSyncEpoch(_, _) => "AwaitSyncEpoch"
    case Clear(_, _) => "Clear"
    case Shutdown => "Shutdown"
    case ImmToUploader(_) => "ImmToUploader"
    case SealEpoch(_, _) => "SealEpoch"
    case LocalSealEpoch(_, _, _, _) => "LocalSealEpoch"
    case FlushEvent(_) => "FlushEvent"
    case RegisterReadVersion(_, _, _, _) => "RegisterReadVersion"
    case DestroyReadVersion(_, _) => "DestroyReadVersion"
  }

  /** `{:?}` of a bool. */
  function BoolDebug(b: bool): string
  {
    if b then "true" else "false"
  }

  /** `{:?}` of a `TableId` (the derived `Debug` of a one-field struct). */
  function TableIdDebug(t: TableId): string
  {
    "TableId { table_id: " + NatToString(t.tableId) + " }"
  }

  /** `HummockEvent::to_debug_string`. Reply senders and vnodes are not rendered. */
  function ToDebugString(e: HummockEvent): string
  {
    match e
    case BufferMayFlush => "BufferMayFlush"
    case AwaitSyncEpoch(epoch, _) => "AwaitSyncEpoch epoch " + NatToString(epoch) + " "
    case Clear(_, prevEpoch) => "Clear " + NatToString(prevEpoch)
    case Shutdown => "Shutdown"
    case ImmToUploader(imm) => "ImmToUploader " + imm.debugRepr
    case SealEpoch(epoch, isCheckpoint) =>
      "SealEpoch epoch " + NatToString(epoch) + " is_checkpoint " + BoolDebug(isCheckpoint)
    case LocalSealEpoch(instanceId, tableId, epoch, opts) =>
      "LocalSealEpoch epoch: " + NatToString(epoch) + ", table_id: " + NatToString(tableId.tableId)
      + ", instance_id: " + NatToString(instanceId) + ", opts: " + opts.debugRepr
    case FlushEvent(_) => "FlushEvent"
    case RegisterReadVersion(tableId, _, isReplicated, _) =>
      "RegisterReadVersion table_id " + TableIdDebug(tableId) + ", is_replicated: " + BoolDebug(isReplicated)
    case DestroyReadVersion(tableId, instanceId) =>
      "DestroyReadVersion table_id " + TableIdDebug(tableId) + " instance_id " + NatToString(instanceId)
  }

  /** Every debug string starts with the name of its variant. */
  lemma DebugStringStartsWithVariantName(e: HummockEvent)
    ensures VariantName(e) <= ToDebugString(e)
  {
  }

  /** The epoch of `AwaitSyncEpoch` can be read back from its debug string, which is
      "AwaitSyncEpoch epoch " followed by the epoch's digits and one space. */
  lemma AwaitSyncEpochDebugShowsEpoch(epoch: u64, sender: ReplyHandle)
    ensures var s := ToDebugString(AwaitSyncEpoch(epoch, sender));
      && |s| > 22 && s[..21] == "AwaitSyncEpoch epoch " && s[|s| - 1] == ' '
      && (forall i :: 21 <= i < |s| - 1 ==> IsDigit(s[i]))
      && DecimalValue(s[21..|s| - 1]) == epoch
  {
    var s := ToDebugString(AwaitSyncEpoch(epoch, sender));
    assert s[21..|s| - 1] == NatToString(epoch);
    NatToStringRoundTrip(epoch);
  }

  /** The previous epoch of `Clear` can be read back from its debug string. */
  lemma ClearDebugShowsPrevEpoch(sender: ReplyHandle, prevEpoch: u64)
    ensures var s := ToDebugString(Clear(sender, prevEpoch));
      && |s| > 6 && s[..6] == "Clear "
      && (forall i :: 6 <= i < |s| ==> IsDigit(s[i]))
      && DecimalValue(s[6..]) == prevEpoch
  {
    var s := ToDebugString(Clear(sender, prevEpoch));
    assert s[6..] == NatToString(prevEpoch);
    NatToStringRoundTrip(prevEpoch);
  }

  /** `Debug` of a `String` value: wrapped in double quotes, with quotes, backslashes and
      the common control characters escaped. */
  function EscapeDebug(s: string): (r: string)
    ensures |r| >= |s|
  {
    if |s| == 0 then ""
    else EscapeChar(s[0]) + EscapeDebug(s[1..])
  }

  function EscapeChar(c: char): (r: string)
    ensures 1 <= |r| <= 2
    ensures |r| == 2 ==> r[0] == '\\'
    ensures |r| == 1 ==> r[0] == c && c != '\\'
  {
    match c
    case '"' => "\\\""
    case '\\' => "\\\\"
    case '\n' => "\\n"
    case '\r' => "\\r"
    case '\t' => "\\t"
    case '\0' => "\\0"
    case _ => [c]
  }

  /** Undoes `EscapeDebug`. */
  function UnescapeDebug(s: string): string
  {
    if |s| == 0 then ""
    else if s[0] == '\\' && |s| >= 2 then UnescapeChar(s[1]) + UnescapeDebug(s[2..])
    else [s[0]] + UnescapeDebug(s[1..])
  }

  function UnescapeChar(c: char): string
  {
    match c
    case 'n' => "\n"
    case 'r' => "\r"
    case 't' => "\t"
    case '0' => "\0"
    case _ => [c]
  }

  /** Escaping loses nothing: the debug rendering of a string determines the string. */
  lemma {:induction false} EscapeDebugRoundTrip(s: string)
    ensures UnescapeDebug(EscapeDebug(s)) == s
    decreases |s|
  {
    if |s| > 0 {
      EscapeDebugRoundTrip(s[1..]);
      var e := EscapeChar(s[0]);
      var rest := EscapeDebug(s[1..]);
      assert EscapeDebug(s) == e + rest;
      if |e| == 2 {
        assert (e + rest)[2..] == rest;
      } else {
        assert (e + rest)[1..] == rest;
      }
    }
  }

  /** `f.debug_struct("HummockEvent").field("debug_string", &s).finish()`. */
  function DebugStructWithString(s: string): (r: string)
    ensures |r| >= 33
    ensures r[..30] == "HummockEvent { debug_string: \"" && r[|r| - 3..] == "\" }"
    ensures UnescapeDebug(r[30..|r| - 3]) == s
  {
    var body := EscapeDebug(s);
    EscapeDebugRoundTrip(s);
    var r := "HummockEvent { debug_string: \"" + body + "\" }";
    assert r[30..|r| - 3] == body;
    r
  }

  /** `Debug for HummockEvent`: a struct named `HummockEvent` whose single field,
      `debug_string`, holds `to_debug_string()`, which can be read back from it. */
  function EventDebug(e: HummockEvent): (r: string)
    ensures |r| >= 33
    ensures r[..30] == "HummockEvent { debug_string: \"" && r[|r| - 3..] == "\" }"
    ensures UnescapeDebug(r[30..|r| - 3]) == ToDebugString(e)
  {
    DebugStructWithString(ToDebugString(e))
  }

  // ---------------------------------------------------------------------------
  // The event channel and the instance guard
  // ---------------------------------------------------------------------------

  /** The sending side of the handler's unbounded event queue. Sending fails once the
      receiving side (the handler loop) is gone; a failed send hands the event back. */
  class EventSender {
    var queue: seq<HummockEvent>
    var receiverAlive: bool

    constructor ()
      ensures queue == [] && receiverAlive
    {
      queue := [];
      receiverAlive := true;
    }

    method Send(e: HummockEvent) returns (r: Result<(), HummockEvent>)
      modifies this
      ensures r.Ok? <==> old(receiverAlive)
      ensures r.Err? ==> r.error == e
      ensures queue == if old(receiverAlive) then old(queue) + [e] else old(queue)
      ensures receiverAlive == old(receiverAlive)
    {
      if receiverAlive {
        queue := queue + [e];
        r := Ok(());
      } else {
        r := Err(e);
      }
    }

    /** The handler loop terminates and drops its receiver. */
    method CloseReceiver()
      modifies this
      ensures !receiverAlive && queue == old(queue)
    {
      receiverAlive := false;
    }
  }

  /** `LocalInstanceGuard`: handed out with a registered read version; releasing it
      deregisters that read version. Rust drops a value exactly once, which `released`
      records. */
  class LocalInstanceGuard {
    const tableId: TableId
    const instanceId: LocalInstanceId
    const eventSender: EventSender
    var released: bool

    constructor (tableId: TableId, instanceId: LocalInstanceId, eventSender: EventSender)
      ensures this.tableId == tableId && this.instanceId == instanceId
      ensures this.eventSender == eventSender && !released
    {
      this.tableId := tableId;
      this.instanceId := instanceId;
      this.eventSender := eventSender;
      released := false;
    }

    /** `Drop for LocalInstanceGuard`: puts exactly one `DestroyReadVersion` for this
        guard's table and instance on the queue. When the handler is gone the send error
        is logged (`errorLog`) and swallowed; release itself never fails. */
    method Drop() returns (errorLog: Option<string>)
      requires !released
      modifies this, eventSender
      ensures released
      ensures eventSender.queue == if old(eventSender.receiverAlive)
                                   then old(eventSender.queue) + [DestroyReadVersion(tableId, instanceId)]
                                   else old(eventSender.queue)
      ensures eventSender.receiverAlive == old(eventSender.receiverAlive)
      ensures errorLog.Some? <==> !old(eventSender.receiverAlive)
      ensures errorLog.Some? ==> errorLog.value == "LocalInstanceGuard Drop SendError"
    {
      var sent := eventSender.Send(DestroyReadVersion(tableId, instanceId));
      errorLog := if sent.Err? then Some("LocalInstanceGuard Drop SendError") else None;
      released := true;
    }
  }

  /** Dropping a fresh guard while the handler runs leaves exactly one deregistration
      event for its instance on the queue. */
  method DropFreshGuard(sender: EventSender, tableId: TableId, instanceId: LocalInstanceId)
    requires sender.receiverAlive && sender.queue == []
    modifies sender
    ensures sender.queue == [DestroyReadVersion(tableId, instanceId)]
  {
    var guard := new LocalInstanceGuard(tableId, instanceId, sender);
    var log := guard.Drop();
  }

  // ---------------------------------------------------------------------------
  // Shared read-only view of the read-version mapping
  // ---------------------------------------------------------------------------

  /** The `Arc<RwLock<T>>` cell; the handler writes it, readers take snapshots. */
  class RwLock<T> {
    var value: T

    constructor (value: T)
      ensures this.value == value
    {
      this.value := value;
    }

    /** A write by the owner (the event handler). */
    method Write(value: T)
      modifies this
      ensures this.value == value
    {
      this.value := value;
    }
  }

  /** `ReadOnlyRwLockRef`: a handle that can only read the shared cell. */
  class ReadOnlyRwLockRef<T> {
    const inner: RwLock<T>

    constructor (inner: RwLock<T>)
      ensures this.inner == inner
    {
      this.inner := inner;
    }

    /** `read`: the current contents of the shared cell. */
    method Read() returns (v: T)
      ensures v == inner.value
    {
      v := inner.value;
    }

    /** `clone`: a new handle on the same cell. */
    method Clone() returns (r: ReadOnlyRwLockRef<T>)
      ensures fresh(r) && r.inner == inner
    {
      r := new ReadOnlyRwLockRef(inner);
    }
  }

  /** A write through the owner's cell is seen by every read-only handle on it, clones included. */
  method ClonesShareTheCell<T>(cell: RwLock<T>, v: T) returns (seen: T, seenByClone: T)
    modifies cell
    ensures seen == v && seenByClone == v
  {
    var reader := new ReadOnlyRwLockRef(cell);
    var copy := reader.Clone();
    cell.Write(v);
    seen := reader.Read();
    seenByClone := copy.Read();
  }

  /** `ReadVersionMappingType`: table id to instance id to read version. */
  type ReadVersionMapping<R> = map<TableId, map<LocalInstanceId, R>>

  /** The read versions registered for one (table, instance) pair: at most one, and one
      exactly when both keys are present. */
  function ReadVersionsFor<R>(m: ReadVersionMapping<R>, t: TableId, i: LocalInstanceId): (r: set<R>)
    ensures |r| <= 1
    ensures r != {} <==> t in m && i in m[t]
    ensures forall v :: v in r ==> v == m[t][i]
  {
    if t in m && i in m[t] then {m[t][i]} else {}
  }
}
