/** Task messages, chain links and task states. */
module Base {
  import opened Ids

  datatype Option<+T> = None | Some(value: T)

  newtype Byte = x: int | 0 <= x < 256

  /** A payload or a result; the empty sequence is "no result". */
  type Bytes = seq<Byte>

  datatype TaskState = Pending | Active | Completed | Retry | Archived | Scheduled

  /** One parallel-stage member, frozen when the chain was built. */
  datatype GroupMemberLink = GroupMemberLink(
    kind: string, payload: Bytes, queue: string, maxRetry: int, retention: int, delay: int)

  /** One pending successor, carried inside its predecessor's message. A non-empty `group`
      makes it a parallel stage whose other fields describe the fan-in callback. */
  datatype ChainLink = ChainLink(
    kind: string, payload: Bytes, queue: string, maxRetry: int, noArchive: bool,
    retention: int, delay: int, group: seq<GroupMemberLink>)

  /** The deduplication lock of a task: its queue, and the digest of kind and payload,
      which is taken to be injective. */
  datatype UniqueKey = UniqueKey(queue: string, kind: string, payload: Bytes)

  /** The message stored in a task's hash. */
  datatype TaskMessage = TaskMessage(
    id: Id,
    kind: string,
    payload: Bytes,
    queue: string,
    retried: int,
    maxRetry: int,
    noArchive: bool,
    uniqueKey: Option<UniqueKey>,
    retention: int,
    chain: seq<ChainLink>,
    chainId: Option<Id>,
    chainIndex: nat,
    groupId: Option<Id>,
    groupQueue: string,
    groupCallback: Option<ChainLink>,
    groupIndex: nat,
    groupSize: nat,
    groupMemberId: Option<Id>,
    groupCallbackChain: seq<ChainLink>,
    result: Bytes,
    prevResult: Bytes,
    groupResults: seq<Bytes>)

  /** A message with every optional field at its zero value. */
  function Plain(id: Id, kind: string, payload: Bytes, queue: string, maxRetry: int,
                 noArchive: bool, retention: int): TaskMessage {
    TaskMessage(id, kind, payload, queue, 0, maxRetry, noArchive, None, retention,
                [], None, 0, None, "", None, 0, 0, None, [], [], [], [])
  }
}
