/** One cluster node (dbBE_Redis_server_info_t): the hash-slot range it owns,
    its table of endpoint URLs (master and replicas) and which of them is the
    master. Accessors tolerate an absent (NULL) node; create parses one node
    entry of a topology-discovery reply. */
module Server {

  import opened RedisTypes
  import opened Endpoint

  /** What create reads out of a node entry: the slot range and the endpoint
      URLs in reply order. */
  datatype NodeSpec = NodeSpec(first: int, last: int, endpoints: seq<string>)

  class ServerInfo {
    var firstSlot: int
    var lastSlot: int
    var serverCount: int
    /** The fixed endpoint table; None is a NULL entry. */
    var servers: seq<Option<string>>
    /** Index of the master's entry in `servers`: a reference, never a copy. */
    var master: Option<nat>

    /** A zero-filled node, as calloc or memset leaves it. */
    constructor Zeroed()
      ensures firstSlot == 0 && lastSlot == 0 && serverCount == 0
      ensures servers == seq(CLUSTER_MAX_REPLICA, _ => None) && master == None
    {
      firstSlot, lastSlot, serverCount := 0, 0, 0;
      servers := seq(CLUSTER_MAX_REPLICA, _ => None);
      master := None;
    }

    /** The layout of the structure: CLUSTER_MAX_REPLICA endpoint entries, a
        count within that capacity and a master pointing into the table. */
    ghost predicate Shape()
      reads this
    {
      && |servers| == CLUSTER_MAX_REPLICA
      && serverCount <= CLUSTER_MAX_REPLICA
      && (master.Some? ==> master.value < CLUSTER_MAX_REPLICA)
    }

    /** A node as create and create_single build it and update_master keeps
        it: a valid slot range, the first serverCount entries populated and
        the others NULL, and the master one of the populated entries. */
    ghost predicate Valid()
      reads this
    {
      && Shape()
      && ValidSlotRange(firstSlot, lastSlot)
      && 1 <= serverCount
      && (forall k :: 0 <= k < CLUSTER_MAX_REPLICA ==> (servers[k].Some? <==> k < serverCount))
      && master.Some? && master.value < serverCount
    }

    /** This node holds exactly the node described by spec, with its first
        endpoint as master. */
    ghost predicate Holds(spec: NodeSpec)
      reads this
    {
      && firstSlot == spec.first && lastSlot == spec.last
      && |spec.endpoints| <= CLUSTER_MAX_REPLICA
      && serverCount == |spec.endpoints|
      && |servers| == CLUSTER_MAX_REPLICA
      && (forall k :: 0 <= k < |spec.endpoints| ==> servers[k] == Some(spec.endpoints[k]))
      && (forall k :: |spec.endpoints| <= k < CLUSTER_MAX_REPLICA ==> servers[k] == None)
      && master == Some(0)
    }

    /** The state destroy leaves: every endpoint string released. */
    ghost predicate Released()
      reads this
    {
      serverCount == 0 && servers == seq(CLUSTER_MAX_REPLICA, _ => None) && master == None
    }
  }

  // ---------------------------------------------------------------------------
  // Accessors
  // ---------------------------------------------------------------------------

  /** dbBE_Redis_server_info_getsize */
  function GetSize(si: ServerInfo?): (n: int)
    reads si
    ensures si == null ==> n == 0
    ensures si != null ==> n == si.serverCount
    ensures si != null && si.Valid() ==> 1 <= n <= CLUSTER_MAX_REPLICA
  {
    if si == null then 0 else si.serverCount
  }

  /** dbBE_Redis_server_info_get_first_slot */
  function GetFirstSlot(si: ServerInfo?): (s: int)
    reads si
    ensures si == null ==> s == HASH_SLOT_INVAL
    ensures si != null ==> s == si.firstSlot
    ensures si != null && si.Valid() ==> 0 <= s < HASH_SLOT_MAX && s != HASH_SLOT_INVAL
  {
    if si == null then HASH_SLOT_INVAL else si.firstSlot
  }

  /** dbBE_Redis_server_info_get_last_slot */
  function GetLastSlot(si: ServerInfo?): (s: int)
    reads si
    ensures si == null ==> s == HASH_SLOT_INVAL
    ensures si != null ==> s == si.lastSlot
    ensures si != null && si.Valid() ==> GetFirstSlot(si) <= s < HASH_SLOT_MAX && s != HASH_SLOT_INVAL
  {
    if si == null then HASH_SLOT_INVAL else si.lastSlot
  }

  /** dbBE_Redis_server_info_get_replica: the endpoint at index, NULL when the
      node is absent, the index is outside the table's capacity, or the entry
      is not populated (the caller cannot tell these apart). */
  function GetReplica(si: ServerInfo?, index: int): (r: Option<string>)
    reads si
    requires si != null ==> si.Shape()
    ensures si == null || index < 0 || index >= CLUSTER_MAX_REPLICA ==> r.None?
    ensures si != null && 0 <= index < CLUSTER_MAX_REPLICA ==> r == si.servers[index]
    ensures si != null && si.Valid() ==> (r.Some? <==> 0 <= index < si.serverCount)
  {
    if si == null || index < 0 || index >= CLUSTER_MAX_REPLICA then None
    else si.servers[index]
  }

  /** dbBE_Redis_server_info_get_master: the entry the master refers to; NULL
      for an absent node or one whose master was never assigned. On a valid
      node it is one of the populated endpoints. */
  function GetMaster(si: ServerInfo?): (r: Option<string>)
    reads si
    requires si != null ==> si.Shape()
    ensures si == null || si.master.None? ==> r.None?
    ensures si != null && si.master.Some? ==> r == si.servers[si.master.value]
    ensures si != null && si.Valid() ==> r.Some? && r in si.servers[..si.serverCount]
  {
    if si == null || si.master.None? then None else si.servers[si.master.value]
  }

  // ---------------------------------------------------------------------------
  // Mutators
  // ---------------------------------------------------------------------------

  /** dbBE_Redis_server_info_update_master: makes entry index the master.
      -EINVAL for an absent node or an index outside [0, serverCount); the
      entry itself is not required to be populated. */
  method UpdateMaster(si: ServerInfo?, index: int) returns (rc: int)
    requires si != null ==> si.Shape()
    modifies si
    ensures si == null ==> rc == -EINVAL
    ensures si != null ==> (rc == 0 <==> 0 <= index < old(si.serverCount))
    ensures si != null && rc != 0 ==> rc == -EINVAL && unchanged(si)
    ensures si != null && rc == 0 ==>
      && si.master == Some(index)
      && si.firstSlot == old(si.firstSlot) && si.lastSlot == old(si.lastSlot)
      && si.serverCount == old(si.serverCount) && si.servers == old(si.servers)
    ensures si != null ==> si.Shape() && (old(si.Valid()) ==> si.Valid())
    ensures si != null && rc == 0 ==> GetMaster(si) == GetReplica(si, index)
  {
    if si == null || index < 0 || index >= si.serverCount {
      return -EINVAL;
    }
    si.master := Some(index);
    rc := 0;
  }

  /** dbBE_Redis_server_info_destroy: releases the endpoint strings. -EINVAL
      for an absent node. */
  method Destroy(si: ServerInfo?) returns (rc: int)
    modifies si
    ensures si == null ==> rc == -EINVAL
    ensures si != null ==> rc == 0 && si.Released()
    ensures si != null ==> si.firstSlot == old(si.firstSlot) && si.lastSlot == old(si.lastSlot)
  {
    if si == null {
      return -EINVAL;
    }
    si.servers := seq(CLUSTER_MAX_REPLICA, _ => None);
    si.serverCount := 0;
    si.master := None;
    rc := 0;
  }

  // ---------------------------------------------------------------------------
  // Parsing a node entry: [start, end, [host, port, ...], [host, port, ...] ...]
  // ---------------------------------------------------------------------------

  /** An endpoint element: an array whose first element is the host string and
      whose second is an integer port within range; further elements (the
      node id) are not inspected. */
  predicate IsEndpointReply(e: Reply)
  {
    && e.Array? && |e.elems| >= 2
    && e.elems[0].Char? && e.elems[1].Int? && ValidPort(e.elems[1].i)
  }

  function EndpointUrl(e: Reply): string
    requires IsEndpointReply(e)
  {
    FormatUrl(e.elems[0].s, e.elems[1].i)
  }

  /** A well-formed node entry, stated element by element. */
  ghost predicate IsNodeReply(r: Option<Reply>)
  {
    && r.Some? && r.value.Array?
    && 3 <= |r.value.elems| <= 2 + CLUSTER_MAX_REPLICA
    && r.value.elems[0].Int? && r.value.elems[1].Int?
    && ValidSlotRange(r.value.elems[0].i, r.value.elems[1].i)
    && forall k :: 2 <= k < |r.value.elems| ==> IsEndpointReply(r.value.elems[k])
  }

  /** The endpoint URLs of a list of endpoint elements, or None as soon as one
      is malformed. */
  function ParseEndpoints(es: seq<Reply>): (r: Option<seq<string>>)
    ensures r.Some? <==> forall k :: 0 <= k < |es| ==> IsEndpointReply(es[k])
    ensures r.Some? ==> |r.value| == |es|
    ensures r.Some? ==> forall k :: 0 <= k < |es| ==> r.value[k] == EndpointUrl(es[k])
  {
    if es == [] then Some([])
    else if !IsEndpointReply(es[0]) then None
    else
      match ParseEndpoints(es[1..])
      case None => None
      case Some(rest) => Some([EndpointUrl(es[0])] + rest)
  }

  /** What dbBE_Redis_server_info_create accepts and builds: NULL for an absent
      reply, a reply that is not an array or has fewer than three elements,
      slot bounds that are not integers or not 0 <= start <= end < HASH_SLOT_MAX,
      more endpoints than the table holds, or a malformed endpoint (not an
      array, host not a string, port not an integer or out of range);
      otherwise the slot range and every endpoint's URL in order. */
  function ParseNode(r: Option<Reply>): (n: Option<NodeSpec>)
    ensures n.Some? <==> IsNodeReply(r)
    ensures n.Some? ==>
      && n.value.first == r.value.elems[0].i
      && n.value.last == r.value.elems[1].i
      && |n.value.endpoints| == |r.value.elems| - 2
      && forall k :: 0 <= k < |n.value.endpoints| ==> n.value.endpoints[k] == EndpointUrl(r.value.elems[k + 2])
  {
    if r.None? || !r.value.Array? || |r.value.elems| < 3 then None
    else
      var e := r.value.elems;
      if !e[0].Int? || !e[1].Int? then None
      else if !ValidSlotRange(e[0].i, e[1].i) then None
      else if |e| - 2 > CLUSTER_MAX_REPLICA then None
      else
        match ParseEndpoints(e[2..])
        case None => None
        case Some(urls) => Some(NodeSpec(e[0].i, e[1].i, urls))
  }

  /** dbBE_Redis_server_info_create: the node ParseNode describes, built one
      endpoint at a time; NULL (and nothing allocated) when ParseNode rejects
      the reply. */
  method Create(r: Option<Reply>) returns (si: ServerInfo?)
    ensures si == null <==> ParseNode(r).None?
    ensures si != null ==> fresh(si) && si.Valid() && si.Holds(ParseNode(r).value)
  {
    if r.None? || !r.value.Array? || |r.value.elems| < 3 {
      return null;
    }
    var e := r.value.elems;
    if !e[0].Int? || !e[1].Int? || e[0].i < 0 || e[1].i >= HASH_SLOT_MAX || e[0].i > e[1].i {
      return null;
    }
    if |e| - 2 > CLUSTER_MAX_REPLICA {
      return null;
    }
    var servers: seq<Option<string>> := seq(CLUSTER_MAX_REPLICA, _ => None);
    var n := 2;
    while n < |e|
      invariant 2 <= n <= |e|
      invariant |servers| == CLUSTER_MAX_REPLICA
      invariant forall k :: 2 <= k < n ==> IsEndpointReply(e[k])
      invariant forall k :: 0 <= k < n - 2 ==> servers[k] == Some(EndpointUrl(e[k + 2]))
      invariant forall k :: n - 2 <= k < CLUSTER_MAX_REPLICA ==> servers[k] == None
    {
      var ep := e[n];
      if !ep.Array? || |ep.elems| < 2 || !ep.elems[0].Char? || !ep.elems[1].Int? || !ValidPort(ep.elems[1].i) {
        return null;
      }
      servers := servers[n - 2 := Some(FormatUrl(ep.elems[0].s, ep.elems[1].i))];
      n := n + 1;
    }
    si := new ServerInfo.Zeroed();
    si.firstSlot, si.lastSlot := e[0].i, e[1].i;
    si.serverCount := |e| - 2;
    si.servers := servers;
    si.master := Some(0);
  }

  /** dbBE_Redis_server_info_create_single: a standalone node owning every
      slot, whose only endpoint and master is url verbatim; NULL for an absent
      url. */
  method CreateSingle(url: Option<string>) returns (si: ServerInfo?)
    ensures si == null <==> url.None?
    ensures si != null ==> fresh(si) && si.Valid() && si.Holds(NodeSpec(0, HASH_SLOT_MAX - 1, [url.value]))
  {
    if url.None? {
      return null;
    }
    si := new ServerInfo.Zeroed();
    si.firstSlot, si.lastSlot := 0, HASH_SLOT_MAX - 1;
    si.servers := si.servers[0 := Some(url.value)];
    si.serverCount := 1;
    si.master := Some(0);
  }

  /** What a node built from spec answers through the accessors. */
  lemma HoldsAccessors(si: ServerInfo, spec: NodeSpec)
    requires si.Holds(spec) && |spec.endpoints| >= 1
    ensures si.Shape()
    ensures GetSize(si) == |spec.endpoints|
    ensures GetFirstSlot(si) == spec.first && GetLastSlot(si) == spec.last
    ensures GetMaster(si) == Some(spec.endpoints[0])
    ensures forall k :: 0 <= k < |spec.endpoints| ==> GetReplica(si, k) == Some(spec.endpoints[k])
    ensures forall k :: |spec.endpoints| <= k ==> GetReplica(si, k) == None
  {
  }

  /** A node built from spec holds exactly spec's endpoint URLs. */
  lemma HoldsAddresses(si: ServerInfo, spec: NodeSpec, url: string)
    requires si.Holds(spec)
    ensures Some(url) in si.servers <==> url in spec.endpoints
  {
    if url in spec.endpoints {
      var k :| 0 <= k < |spec.endpoints| && spec.endpoints[k] == url;
      assert si.servers[k] == Some(url);
    }
  }
}
