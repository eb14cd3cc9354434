/** Definitions shared by the Redis backend's cluster topology model: an Option
    type for the values the backend represents by a possibly-NULL pointer, the
    configuration constants, the errno codes the operations return, and the
    typed reply tree the topology is parsed from. */
module RedisTypes {

  /** `None` stands for a NULL pointer: an absent node, URL, reply or endpoint. */
  datatype Option<+T> = None | Some(value: T)

  /** Number of hash slots of the keyspace; valid slots are 0 .. HASH_SLOT_MAX-1. */
  const HASH_SLOT_MAX: int := 16384
  /** Sentinel slot number the slot getters return for an absent node. */
  const HASH_SLOT_INVAL: int := HASH_SLOT_MAX + 1
  /** Capacity of a node's endpoint table (the master and its replicas). */
  const CLUSTER_MAX_REPLICA: int := 8
  /** Capacity of a cluster's node table. */
  const CLUSTER_MAX_SIZE: int := 1024
  /** Largest TCP port number; a port must fit in 16 bits. */
  const PORT_MAX: int := 65535

  /** errno values; the operations return their negation. */
  const EINVAL: int := 22
  const ENOENT: int := 2

  predicate ValidSlotRange(first: int, last: int)
  {
    0 <= first <= last < HASH_SLOT_MAX
  }

  predicate ValidPort(port: int)
  {
    0 <= port <= PORT_MAX
  }

  /** One element of a parsed reply: the result tree the protocol layer builds
      from a (CLUSTER SLOTS) response. */
  datatype Reply =
    | Unspecified
    | Char(s: string)
    | Int(i: int)
    | Error
    | Array(elems: seq<Reply>)
}
