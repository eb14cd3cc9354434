/** The cluster topology (dbBE_Redis_cluster_info_t): a fixed-capacity table of
    owned nodes and the number of valid entries. Lookups tolerate an absent
    cluster and unpopulated entries; create builds every node of a discovery
    reply or nothing; removal destroys a node and closes the gap. */
module Cluster {

  import opened RedisTypes
  import opened Server

  /** The node table after removing entry i: later entries move down one
      place and the last place becomes NULL. */
  function Without(s: seq<ServerInfo?>, i: nat): (t: seq<ServerInfo?>)
    requires i < |s|
    ensures |t| == |s| && t[|s| - 1] == null
    ensures forall k :: 0 <= k < i ==> t[k] == s[k]
    ensures forall k :: i <= k < |s| - 1 ==> t[k] == s[k + 1]
  {
    s[..i] + s[i + 1..] + [null]
  }

  /** Position of the first entry below n that is x, or n if there is none. */
  function FirstIndex(s: seq<ServerInfo?>, x: ServerInfo, n: nat): (k: nat)
    requires n <= |s|
    ensures k <= n
    ensures k < n ==> s[k] == x
    ensures forall j :: 0 <= j < k ==> s[j] != x
  {
    if n == 0 then 0
    else var k := FirstIndex(s, x, n - 1); if k < n - 1 then k else if s[n - 1] == x then n - 1 else n
  }

  class ClusterInfo {
    var nodes: array<ServerInfo?>
    var size: int

    /** A zero-filled cluster, as calloc or memset leaves it. */
    constructor Zeroed()
      ensures fresh(nodes) && nodes.Length == CLUSTER_MAX_SIZE && size == 0
      ensures forall i :: 0 <= i < nodes.Length ==> nodes[i] == null
    {
      nodes := new ServerInfo?[CLUSTER_MAX_SIZE](_ => null);
      size := 0;
    }

    /** The layout of the structure: CLUSTER_MAX_SIZE entries, a size within
        that capacity and no node at or beyond size. Entries below size may be
        NULL (holes). */
    ghost predicate Shape()
      reads this, nodes
    {
      && nodes.Length == CLUSTER_MAX_SIZE
      && 0 <= size <= CLUSTER_MAX_SIZE
      && forall i :: size <= i < nodes.Length ==> nodes[i] == null
    }

    /** Each node is owned by one entry only. */
    ghost predicate Distinct()
      reads this, nodes
    {
      forall i, j :: 0 <= i < j < nodes.Length && nodes[i] != null ==> nodes[i] != nodes[j]
    }

    /** A cluster as create and create_single build it and removal keeps it:
        the first size entries are distinct valid nodes. */
    ghost predicate Valid()
      reads this, nodes, nodes[..]
    {
      && Shape()
      && Distinct()
      && forall i :: 0 <= i < size ==> nodes[i] != null && nodes[i].Valid()
    }

    /** The cluster holds exactly the nodes specs describes, in order. */
    ghost predicate Holds(specs: seq<NodeSpec>)
      reads this, nodes, nodes[..]
    {
      && size == |specs| <= nodes.Length
      && forall i :: 0 <= i < |specs| ==> nodes[i] != null && nodes[i].Holds(specs[i])
    }

    /** The first entry from i on, below size, that has addr among its
        endpoints. */
    function ScanFrom(addr: string, i: nat): (k: Option<nat>)
      reads this, nodes, nodes[..]
      requires Shape() && i <= size
      ensures k.Some? ==> i <= k.value < size && HasAddr(nodes[k.value], addr)
      ensures k.Some? ==> forall j :: i <= j < k.value ==> !HasAddr(nodes[j], addr)
      ensures k.None? ==> forall j :: i <= j < size ==> !HasAddr(nodes[j], addr)
      decreases size - i
    {
      if i == size then None
      else if HasAddr(nodes[i], addr) then Some(i)
      else ScanFrom(addr, i + 1)
    }
  }

  /** Entry n is a node with addr as one of its endpoints. */
  predicate HasAddr(n: ServerInfo?, addr: string)
    reads n
  {
    n != null && Some(addr) in n.servers
  }

  // ---------------------------------------------------------------------------
  // Accessors
  // ---------------------------------------------------------------------------

  /** dbBE_Redis_cluster_info_getsize */
  function GetSize(ci: ClusterInfo?): (n: int)
    reads ci, if ci == null then {} else {ci.nodes}
    requires ci != null ==> ci.Shape()
    ensures ci == null ==> n == 0
    ensures ci != null ==> n == ci.size && 0 <= n <= CLUSTER_MAX_SIZE
  {
    if ci == null then 0 else ci.size
  }

  /** dbBE_Redis_cluster_info_get_server: the node at index; NULL for an absent
      cluster, an index outside the table, or an unpopulated entry, whatever
      the recorded size. */
  function GetServer(ci: ClusterInfo?, index: int): (r: ServerInfo?)
    reads ci, if ci == null then {} else {ci.nodes}
    requires ci != null ==> ci.Shape()
    ensures r != null <==> ci != null && 0 <= index < ci.size && ci.nodes[index] != null
    ensures r != null ==> r == ci.nodes[index]
  {
    if ci == null || index < 0 || index >= CLUSTER_MAX_SIZE then null else ci.nodes[index]
  }

  /** dbBE_Redis_cluster_info_get_server_by_addr: the first node (in table
      order) that has addr as the exact string of one of its endpoints; NULL
      for an absent cluster or address, or when no node has it. */
  function GetServerByAddr(ci: ClusterInfo?, addr: Option<string>): (r: ServerInfo?)
    reads ci, if ci == null then {} else {ci.nodes}, if ci == null then [] else ci.nodes[..]
    requires ci != null ==> ci.Shape()
    ensures r != null ==> ci != null && addr.Some? && HasAddr(r, addr.value)
    ensures r != null ==>
      exists i :: 0 <= i < ci.size && ci.nodes[i] == r && (forall j :: 0 <= j < i ==> !HasAddr(ci.nodes[j], addr.value))
    ensures r == null && ci != null && addr.Some? ==>
      forall i :: 0 <= i < ci.size ==> !HasAddr(ci.nodes[i], addr.value)
  {
    if ci == null || addr.None? then null
    else
      match ci.ScanFrom(addr.value, 0)
      case None => null
      case Some(k) => ci.nodes[k]
  }

  // ---------------------------------------------------------------------------
  // Construction
  // ---------------------------------------------------------------------------

  /** The nodes of a list of node entries, or None as soon as one is
      rejected. */
  function ParseNodes(es: seq<Reply>): (r: Option<seq<NodeSpec>>)
    ensures r.Some? <==> forall i :: 0 <= i < |es| ==> ParseNode(Some(es[i])).Some?
    ensures r.Some? ==> |r.value| == |es|
    ensures r.Some? ==> forall i :: 0 <= i < |es| ==> Some(r.value[i]) == ParseNode(Some(es[i]))
  {
    if es == [] then Some([])
    else
      match ParseNode(Some(es[0]))
      case None => None
      case Some(n) =>
        match ParseNodes(es[1..])
        case None => None
        case Some(rest) => Some([n] + rest)
  }

  /** What dbBE_Redis_cluster_info_create accepts and builds: NULL for an
      absent reply, one that is not an array, an empty one, one with more than
      CLUSTER_MAX_SIZE entries, or one with any rejected node entry; otherwise
      one node per entry, in order. */
  function ParseCluster(r: Option<Reply>): (c: Option<seq<NodeSpec>>)
    ensures c.Some? <==>
      && r.Some? && r.value.Array?
      && 1 <= |r.value.elems| <= CLUSTER_MAX_SIZE
      && forall i :: 0 <= i < |r.value.elems| ==> ParseNode(Some(r.value.elems[i])).Some?
    ensures c.Some? ==> |c.value| == |r.value.elems|
    ensures c.Some? ==> forall i :: 0 <= i < |c.value| ==> Some(c.value[i]) == ParseNode(Some(r.value.elems[i]))
  {
    if r.None? || !r.value.Array? || |r.value.elems| == 0 || |r.value.elems| > CLUSTER_MAX_SIZE then None
    else ParseNodes(r.value.elems)
  }

  /** dbBE_Redis_cluster_info_create: creates the nodes one entry at a time;
      when an entry is rejected, destroys the partial cluster and returns NULL,
      so no partially built topology is ever returned. */
  method Create(r: Option<Reply>) returns (ci: ClusterInfo?)
    ensures ci == null <==> ParseCluster(r).None?
    ensures ci != null ==> fresh(ci) && fresh(ci.nodes) && ci.Valid() && ci.Holds(ParseCluster(r).value)
    ensures ci != null ==> forall i :: 0 <= i < ci.size ==> fresh(ci.nodes[i])
  {
    if r.None? || !r.value.Array? || |r.value.elems| == 0 || |r.value.elems| > CLUSTER_MAX_SIZE {
      return null;
    }
    var es := r.value.elems;
    ci := new ClusterInfo.Zeroed();
    var i := 0;
    while i < |es|
      invariant 0 <= i <= |es|
      invariant fresh(ci) && fresh(ci.nodes) && ci.Shape() && ci.Distinct() && ci.size == i
      invariant forall k :: 0 <= k < i ==> ci.nodes[k] != null && fresh(ci.nodes[k]) && BuiltFrom(ci.nodes[k], es[k])
    {
      var si := Server.Create(Some(es[i]));
      if si == null {
        var _ := Destroy(ci);
        return null;
      }
      Append(ci, si);
      i := i + 1;
    }
  }

  /** si is the node create builds from entry e. */
  ghost predicate BuiltFrom(si: ServerInfo, e: Reply)
    reads si
  {
    ParseNode(Some(e)).Some? && si.Valid() && si.Holds(ParseNode(Some(e)).value)
  }

  /** Stores si in the first free entry and counts it. */
  method Append(ci: ClusterInfo, si: ServerInfo)
    requires ci.Shape() && ci.Distinct() && ci.size < CLUSTER_MAX_SIZE
    requires forall k :: 0 <= k < ci.size ==> ci.nodes[k] != si
    modifies ci, ci.nodes
    ensures ci.nodes == old(ci.nodes) && ci.size == old(ci.size) + 1
    ensures ci.nodes[old(ci.size)] == si
    ensures forall k :: 0 <= k < ci.nodes.Length && k != old(ci.size) ==> ci.nodes[k] == old(ci.nodes[k])
    ensures ci.Shape() && ci.Distinct()
  {
    ci.nodes[ci.size] := si;
    ci.size := ci.size + 1;
  }

  /** dbBE_Redis_cluster_info_create_single: a one-node cluster around a
      standalone node for url; NULL for an absent url. */
  method CreateSingle(url: Option<string>) returns (ci: ClusterInfo?)
    ensures ci == null <==> url.None?
    ensures ci != null ==> fresh(ci) && fresh(ci.nodes) && ci.Valid() && fresh(ci.nodes[0])
    ensures ci != null ==> ci.Holds([NodeSpec(0, HASH_SLOT_MAX - 1, [url.value])])
  {
    var si := Server.CreateSingle(url);
    if si == null {
      return null;
    }
    ci := new ClusterInfo.Zeroed();
    ci.nodes[0] := si;
    ci.size := 1;
  }

  // ---------------------------------------------------------------------------
  // Mutators
  // ---------------------------------------------------------------------------

  /** The objects removal and destruction may change. */
  ghost function Footprint(ci: ClusterInfo?): set<object>
    reads ci, if ci == null then {} else {ci.nodes}
  {
    if ci == null then {}
    else {ci as object, ci.nodes as object} + set i | 0 <= i < ci.nodes.Length && ci.nodes[i] != null :: ci.nodes[i] as object
  }

  /** dbBE_Redis_cluster_info_remove_entry_idx: destroys the node at idx, moves
      the later entries down one place and decrements size. -EINVAL for an
      absent cluster, an index outside [0, size), or an unpopulated entry. */
  method RemoveEntryIdx(ci: ClusterInfo?, idx: int) returns (rc: int)
    requires ci != null ==> ci.Shape()
    modifies Footprint(ci)
    ensures ci == null ==> rc == -EINVAL
    ensures ci != null ==> ci.nodes == old(ci.nodes) && ci.Shape()
    ensures ci != null ==> (rc == 0 <==> 0 <= idx < old(ci.size) && old(ci.nodes[idx]) != null)
    ensures rc != 0 ==> rc == -EINVAL && unchanged(old(Footprint(ci)))
    ensures ci != null && rc == 0 ==>
      && ci.size == old(ci.size) - 1
      && ci.nodes[..] == Without(old(ci.nodes[..]), idx)
      && old(ci.nodes[idx]).Released()
    ensures ci != null && rc == 0 ==>
      forall n :: n in old(ci.nodes[..]) && n != old(ci.nodes[idx]) ==> n != null ==> unchanged(n)
    ensures ci != null && old(ci.Valid()) ==> ci.Valid()
  {
    if ci == null || idx < 0 || idx >= ci.size || ci.nodes[idx] == null {
      return -EINVAL;
    }
    ghost var before := ci.nodes[..];
    ghost var wasValid := ci.Valid();
    var victim := ci.nodes[idx];
    var _ := Server.Destroy(victim);
    CloseGap(ci, idx);
    if wasValid {
      assert forall j :: 0 <= j < |before| && j != idx ==> before[j] != victim;
    }
    rc := 0;
  }

  /** Moves the entries after idx down one place, clears the last one and
      decrements size. */
  method CloseGap(ci: ClusterInfo, idx: int)
    requires ci.Shape() && 0 <= idx < ci.size
    modifies ci, ci.nodes
    ensures ci.nodes == old(ci.nodes) && ci.size == old(ci.size) - 1 && ci.Shape()
    ensures ci.nodes[..] == Without(old(ci.nodes[..]), idx)
  {
    ghost var before := ci.nodes[..];
    var k := idx;
    while k < ci.size - 1
      modifies ci.nodes
      invariant idx <= k <= ci.size - 1
      invariant ci.size == old(ci.size) && ci.nodes == old(ci.nodes)
      invariant forall j :: 0 <= j < k ==> ci.nodes[j] == Without(before, idx)[j]
      invariant forall j :: k <= j < ci.nodes.Length ==> ci.nodes[j] == before[j]
    {
      ci.nodes[k] := ci.nodes[k + 1];
      k := k + 1;
    }
    ci.nodes[ci.size - 1] := null;
    ci.size := ci.size - 1;
    assert ci.nodes[..] == Without(before, idx);
  }

  /** dbBE_Redis_cluster_info_remove_entry_ptr: removes node srv, found by
      identity, as RemoveEntryIdx does at its first position. -EINVAL for an
      absent cluster or node, -ENOENT when srv is not among the first size
      entries (in particular when size is 0). */
  method RemoveEntryPtr(ci: ClusterInfo?, srv: ServerInfo?) returns (rc: int)
    requires ci != null ==> ci.Shape()
    modifies Footprint(ci)
    ensures ci == null || srv == null ==> rc == -EINVAL
    ensures ci != null ==> ci.nodes == old(ci.nodes) && ci.Shape()
    ensures ci != null && srv != null && srv !in old(ci.nodes[..ci.size]) ==> rc == -ENOENT
    ensures rc != 0 ==> unchanged(old(Footprint(ci)))
    ensures ci != null && srv != null && srv in old(ci.nodes[..ci.size]) ==>
      && rc == 0
      && ci.size == old(ci.size) - 1
      && ci.nodes[..] == Without(old(ci.nodes[..]), FirstIndex(old(ci.nodes[..]), srv, old(ci.size)))
      && srv.Released()
    ensures ci != null && srv != null && srv in old(ci.nodes[..ci.size]) ==>
      forall n :: n in old(ci.nodes[..]) && n != srv ==> n != null ==> unchanged(n)
    ensures ci != null && srv != null && srv in old(ci.nodes[..ci.size]) && old(ci.Valid()) ==>
      srv !in ci.nodes[..]
    ensures ci != null && old(ci.Valid()) ==> ci.Valid()
  {
    if ci == null || srv == null {
      return -EINVAL;
    }
    var i := 0;
    while i < ci.size && ci.nodes[i] != srv
      invariant 0 <= i <= ci.size
      invariant forall j :: 0 <= j < i ==> ci.nodes[j] != srv
    {
      i := i + 1;
    }
    if i == ci.size {
      assert srv !in ci.nodes[..ci.size];
      return -ENOENT;
    }
    assert i == FirstIndex(ci.nodes[..], srv, ci.size);
    rc := RemoveEntryIdx(ci, i);
  }

  /** dbBE_Redis_cluster_info_destroy: destroys every node and empties the
      table. -EINVAL for an absent cluster. */
  method Destroy(ci: ClusterInfo?) returns (rc: int)
    requires ci != null ==> ci.Shape()
    modifies Footprint(ci)
    ensures ci == null ==> rc == -EINVAL
    ensures ci != null ==> rc == 0 && ci.nodes == old(ci.nodes) && ci.size == 0 && ci.Shape()
    ensures ci != null ==> forall i :: 0 <= i < ci.nodes.Length ==> ci.nodes[i] == null
    ensures ci != null ==> forall n :: n in old(ci.nodes[..]) && n != null ==> n.Released()
  {
    if ci == null {
      return -EINVAL;
    }
    ghost var before := ci.nodes[..];
    var i := 0;
    while i < ci.size
      modifies ci.nodes, set j | 0 <= j < |before| && before[j] != null :: before[j]
      invariant 0 <= i <= ci.size && ci.size == old(ci.size) && ci.nodes == old(ci.nodes)
      invariant forall j :: 0 <= j < i ==> ci.nodes[j] == null
      invariant forall j :: i <= j < ci.nodes.Length ==> ci.nodes[j] == before[j]
      invariant forall j :: 0 <= j < i && before[j] != null ==> before[j].Released()
    {
      if ci.nodes[i] != null {
        var _ := Server.Destroy(ci.nodes[i]);
        ci.nodes[i] := null;
      }
      i := i + 1;
    }
    ci.size := 0;
    rc := 0;
  }
}
