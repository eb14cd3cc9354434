/** The unit tests of the topology model, each test function returning the
    number of failed checks as the C test does, with the promise that it
    returns 0; and the reply builder the cluster test uses. */
module ServerInfoTest {

  import opened RedisTypes
  import opened Endpoint
  import opened Server
  import opened Cluster

  /** One TEST( actual == expected ): 0 when it passes, 1 when it fails. */
  function Check(passed: bool): int
  {
    if passed then 0 else 1
  }

  /** Host of endpoint j in the test replies: "127.0.0.1" with its last
      character raised by j, as a C char addition (wrapping at 8 bits). */
  function TestHost(j: nat): string
  {
    "127.0.0.1"[8 := (('1' as int + j) % 256) as char]
  }

  /** Endpoint j of node idx: host, port 6300+idx and a node id. */
  function TestEndpoint(idx: int, j: nat): Reply
  {
    Array([Char(TestHost(j)), Int(6300 + idx), Char("DEADBEEF")])
  }

  /** The node entry cluster_info_test_create_server fills in: slots
      1000*idx .. 1000*idx+999 and scnt endpoints. */
  function TestNodeReply(idx: int, scnt: nat): Reply
  {
    Array([Int(0 + idx * 1000), Int(999 + idx * 1000)] + seq(scnt, j requires 0 <= j => TestEndpoint(idx, j)))
  }

  /** cluster_info_test_create_server: builds the node entry element by
      element, the endpoints in a loop. */
  method CreateServerReply(idx: int, scnt: nat) returns (res: Reply)
    ensures res == TestNodeReply(idx, scnt)
  {
    var elems := [Int(0 + idx * 1000), Int(999 + idx * 1000)];
    var n := 2;
    while n < 2 + scnt
      invariant 2 <= n <= 2 + scnt && |elems| == n
      invariant elems[..2] == [Int(0 + idx * 1000), Int(999 + idx * 1000)]
      invariant forall k :: 2 <= k < n ==> elems[k] == TestEndpoint(idx, k - 2)
    {
      var host := "127.0.0.1";
      host := host[8 := ((host[8] as int + (n - 2)) % 256) as char];
      elems := elems + [Array([Char(host), Int(6300 + idx), Char("DEADBEEF")])];
      n := n + 1;
    }
    res := Array(elems);
    assert res.elems == TestNodeReply(idx, scnt).elems;
  }

  /** The endpoint URLs of the node entry built for idx with scnt endpoints. */
  function TestUrls(idx: nat, scnt: nat): seq<string>
  {
    seq(scnt, j requires 0 <= j => FormatUrl(TestHost(j), 6300 + idx))
  }

  /** Every entry the builder produces for a slot block inside the keyspace
      and an endpoint count the table holds is accepted, with its slot block
      and one URL per endpoint. */
  lemma TestNodeReplyParses(idx: nat, scnt: nat)
    requires 999 + idx * 1000 < HASH_SLOT_MAX
    requires 1 <= scnt <= CLUSTER_MAX_REPLICA
    ensures ParseNode(Some(TestNodeReply(idx, scnt))) == Some(NodeSpec(idx * 1000, 999 + idx * 1000, TestUrls(idx, scnt)))
  {
    var r := TestNodeReply(idx, scnt);
    forall k | 2 <= k < |r.elems|
      ensures IsEndpointReply(r.elems[k])
    {
      assert r.elems[k] == TestEndpoint(idx, k - 2);
    }
    var n := ParseNode(Some(r));
    assert n.Some?;
    forall k | 0 <= k < scnt
      ensures n.value.endpoints[k] == TestUrls(idx, scnt)[k]
    {
      assert r.elems[k + 2] == TestEndpoint(idx, k);
    }
    assert n.value.endpoints == TestUrls(idx, scnt);
  }

  /** The decimal text of the ports the tests use. */
  lemma PortText()
    ensures Decimal(6300) == "6300" && Decimal(6301) == "6301"
  {
    assert Decimal(6) == "6";
    assert Decimal(63) == "63";
    assert Decimal(630) == "630";
  }

  /** The text of the endpoint URLs the tests compare against. */
  lemma Url6300()
    ensures FormatUrl("127.0.0.1", 6300) == "sock://127.0.0.1:6300"
  {
    PortText();
  }

  lemma Url6301()
    ensures FormatUrl("127.0.0.1", 6301) == "sock://127.0.0.1:6301"
    ensures FormatUrl("127.0.0.2", 6301) == "sock://127.0.0.2:6301"
  {
    PortText();
  }

  /** The endpoint URLs of the first two nodes of the cluster test. */
  lemma TestUrlsText()
    ensures TestUrls(0, 1) == ["sock://127.0.0.1:6300"]
    ensures TestUrls(1, 2) == ["sock://127.0.0.1:6301", "sock://127.0.0.2:6301"]
  {
    Url6300();
    Url6301();
    assert TestHost(0) == "127.0.0.1" && TestHost(1) == "127.0.0.2";
    var u0, u1 := TestUrls(0, 1), TestUrls(1, 2);
    assert |u0| == 1 && u0[0] == FormatUrl(TestHost(0), 6300);
    assert |u1| == 2 && u1[0] == FormatUrl(TestHost(0), 6301) && u1[1] == FormatUrl(TestHost(1), 6301);
  }

  /** The three-node discovery reply of the cluster test. */
  function ThreeNodeReply(): Reply
  {
    Array([TestNodeReply(0, 1), TestNodeReply(1, 2), TestNodeReply(2, 4)])
  }

  /** The nodes the three-node reply describes. */
  function ThreeNodeSpecs(): seq<NodeSpec>
  {
    [NodeSpec(0, 999, TestUrls(0, 1)), NodeSpec(1000, 1999, TestUrls(1, 2)), NodeSpec(2000, 2999, TestUrls(2, 4))]
  }

  /** A three-entry cluster reply parses to the three nodes its entries
      parse to. */
  lemma ClusterOfThree(e0: Reply, e1: Reply, e2: Reply, n0: NodeSpec, n1: NodeSpec, n2: NodeSpec)
    requires ParseNode(Some(e0)) == Some(n0)
    requires ParseNode(Some(e1)) == Some(n1)
    requires ParseNode(Some(e2)) == Some(n2)
    ensures ParseCluster(Some(Array([e0, e1, e2]))) == Some([n0, n1, n2])
  {
    var c := ParseCluster(Some(Array([e0, e1, e2])));
    assert c.Some?;
    assert c.value == [n0, n1, n2];
  }

  lemma ThreeNodeReplyParses(r: Reply)
    requires r == ThreeNodeReply()
    ensures ParseCluster(Some(r)) == Some(ThreeNodeSpecs())
  {
    TestNodeReplyParses(0, 1);
    TestNodeReplyParses(1, 2);
    TestNodeReplyParses(2, 4);
    ClusterOfThree(TestNodeReply(0, 1), TestNodeReply(1, 2), TestNodeReply(2, 4),
      NodeSpec(0, 999, TestUrls(0, 1)), NodeSpec(1000, 1999, TestUrls(1, 2)), NodeSpec(2000, 2999, TestUrls(2, 4)));
  }

  /** The replies of every type other than an array, one payload each (the C
      test leaves the payload uninitialised). */
  function NonArrayReplies(): seq<Reply>
  {
    [Unspecified, Char(""), Int(0), Error]
  }

  // ---------------------------------------------------------------------------
  // dbBE_Redis_server_info_unit_tests
  // ---------------------------------------------------------------------------

  /** dbBE_Redis_server_info_unit_tests: the accessors and mutators on a
      zero-filled node claiming five endpoints but holding none, then create,
      create_single and destroy on absent or malformed input. */
  method ServerInfoUnitTests() returns (rc: int)
    ensures rc == 0
  {
    var si := new ServerInfo.Zeroed();
    si.serverCount := 5;
    si.firstSlot := 0;
    si.lastSlot := HASH_SLOT_MAX - 1;
    rc := HollowNodeAccessors(si);
    var more := HollowNodeUpdateMaster(si);
    rc := rc + more;
    more := ServerCreateRejectsShapes();
    rc := rc + more;
  }

  /** A zero-filled node whose count says five. */
  ghost predicate IsHollowNode(si: ServerInfo)
    reads si
  {
    && si.servers == seq(CLUSTER_MAX_REPLICA, _ => None) && si.master == None
    && si.serverCount == 5 && si.firstSlot == 0 && si.lastSlot == HASH_SLOT_MAX - 1
  }

  method HollowNodeAccessors(si: ServerInfo) returns (rc: int)
    requires IsHollowNode(si)
    ensures rc == 0
  {
    rc := 0;
    rc := rc + Check(Server.GetSize(null) == 0);
    rc := rc + Check(Server.GetSize(si) == 5);

    rc := rc + Check(GetFirstSlot(null) == HASH_SLOT_INVAL);
    rc := rc + Check(GetFirstSlot(si) == 0);

    rc := rc + Check(GetLastSlot(null) == HASH_SLOT_INVAL);
    rc := rc + Check(GetLastSlot(si) == HASH_SLOT_MAX - 1);

    rc := rc + Check(GetReplica(null, 0) == None);
    rc := rc + Check(GetReplica(si, -1) == None);
    rc := rc + Check(GetReplica(si, 6) == None);
    rc := rc + Check(GetReplica(si, CLUSTER_MAX_REPLICA) == None);
    rc := rc + Check(GetReplica(si, 1) == None);

    rc := rc + Check(GetMaster(null) == None);
    rc := rc + Check(GetMaster(si) == None);
  }

  method HollowNodeUpdateMaster(si: ServerInfo) returns (rc: int)
    requires IsHollowNode(si)
    modifies si
    ensures rc == 0
  {
    rc := 0;
    var status := UpdateMaster(null, 0);
    rc := rc + Check(status == -EINVAL);
    status := UpdateMaster(si, -1);
    rc := rc + Check(status == -EINVAL);
    status := UpdateMaster(si, 6);
    rc := rc + Check(status == -EINVAL);
    status := UpdateMaster(si, 0);
    rc := rc + Check(status == 0);
  }

  method ServerCreateRejectsShapes() returns (rc: int)
    ensures rc == 0
  {
    rc := 0;
    var kinds := NonArrayReplies();
    for n := 0 to |kinds|
      invariant rc == 0
    {
      var p := Server.Create(Some(kinds[n]));
      rc := rc + Check(p == null);
    }

    var p := Server.Create(Some(Array([Unspecified])));
    rc := rc + Check(p == null);

    p := Server.CreateSingle(None);
    rc := rc + Check(p == null);

    var status := Server.Destroy(null);
    rc := rc + Check(status == -EINVAL);
  }

  // ---------------------------------------------------------------------------
  // server_info_test
  // ---------------------------------------------------------------------------

  /** server_info_test: create on a reply mutated step by step from malformed
      to well formed, then the node it builds. */
  method ServerInfoCreateTest() returns (rc: int)
    ensures rc == 0
  {
    rc := ServerCreateRejectsSlots();
    var more := ServerCreateRejectsMaster();
    rc := rc + more;
    more := ServerCreateAccepts();
    rc := rc + more;
  }

  method ServerCreateRejectsSlots() returns (rc: int)
    ensures rc == 0
  {
    rc := 0;
    var p := Server.Create(None);
    rc := rc + Check(p == null);

    p := Server.Create(Some(Char("")));
    rc := rc + Check(p == null);

    p := Server.Create(Some(Array([Unspecified, Unspecified])));
    rc := rc + Check(p == null);

    // three entries of the wrong types
    var e0, e1, e2 := Error, Int(14053), Unspecified;
    p := Server.Create(Some(Array([e0, e1, e2])));
    rc := rc + Check(p == null);

    e0, e1 := Int(1450), Error;
    p := Server.Create(Some(Array([e0, e1, e2])));
    rc := rc + Check(p == null);

    // invalid slot ranges
    e0, e1 := Int(-1), Int(1000);
    p := Server.Create(Some(Array([e0, e1, e2])));
    rc := rc + Check(p == null);

    e0, e1 := Int(0), Int(16384);
    p := Server.Create(Some(Array([e0, e1, e2])));
    rc := rc + Check(p == null);

    e0, e1 := Int(1000), Int(100);
    p := Server.Create(Some(Array([e0, e1, e2])));
    rc := rc + Check(p == null);
  }

  method ServerCreateRejectsMaster() returns (rc: int)
    ensures rc == 0
  {
    rc := 0;
    var e0, e1 := Int(0), Int(16383);
    var p := Server.Create(Some(Array([e0, e1, Error])));
    rc := rc + Check(p == null);

    var host, port, id := Int(0), Unspecified, Unspecified;
    p := Server.Create(Some(Array([e0, e1, Array([host, port, id])])));
    rc := rc + Check(p == null);

    host, port := Char("127.0.0.1"), Char("");
    p := Server.Create(Some(Array([e0, e1, Array([host, port, id])])));
    rc := rc + Check(p == null);

    port := Int(540354);
    p := Server.Create(Some(Array([e0, e1, Array([host, port, id])])));
    rc := rc + Check(p == null);
  }

  method ServerCreateAccepts() returns (rc: int)
    ensures rc == 0
  {
    rc := 0;
    var master := Array([Char("127.0.0.1"), Int(6300), Unspecified]);
    var si := Server.Create(Some(Array([Int(0), Int(16383), master])));
    rc := rc + Check(si != null);
    if si == null {
      return;
    }
    Url6300();
    rc := rc + Check(si.firstSlot == 0);
    rc := rc + Check(si.lastSlot == 16383);
    rc := rc + Check(si.serverCount == 1);
    rc := rc + Check(si.servers[0] == Some("sock://127.0.0.1:6300"));
    rc := rc + Check(si.servers[1] == None);
    rc := rc + Check(si.master == Some(0));

    var status := Server.Destroy(si);
    rc := rc + Check(status == 0);
  }

  // ---------------------------------------------------------------------------
  // dbBE_Redis_cluster_info_unit_tests
  // ---------------------------------------------------------------------------

  /** dbBE_Redis_cluster_info_unit_tests: lookups, removal and destruction
      on a zero-filled cluster claiming five nodes but holding none, and
      create on absent or non-array replies. */
  method ClusterInfoUnitTests() returns (rc: int)
    ensures rc == 0
  {
    var ci := new ClusterInfo.Zeroed();
    ci.size := 5;
    rc := HollowClusterLookups(ci);
    var more := ClusterCreateRejectsShapes();
    rc := rc + more;
    more := HollowClusterRemoval(ci);
    rc := rc + more;
  }

  /** A zero-filled cluster whose size says five. */
  ghost predicate IsHollowCluster(ci: ClusterInfo)
    reads ci, ci.nodes
  {
    ci.Shape() && ci.size == 5 && forall i :: 0 <= i < ci.nodes.Length ==> ci.nodes[i] == null
  }

  method HollowClusterLookups(ci: ClusterInfo) returns (rc: int)
    requires IsHollowCluster(ci)
    ensures rc == 0
  {
    rc := 0;
    rc := rc + Check(Cluster.GetSize(null) == 0);
    rc := rc + Check(Cluster.GetSize(ci) == 5);

    rc := rc + Check(GetServer(null, 0) == null);
    rc := rc + Check(GetServer(ci, -1) == null);
    rc := rc + Check(GetServer(ci, CLUSTER_MAX_SIZE) == null);
    rc := rc + Check(GetServer(ci, 2) == null);

    rc := rc + Check(GetServerByAddr(null, None) == null);
    rc := rc + Check(GetServerByAddr(ci, None) == null);
    rc := rc + Check(GetServerByAddr(null, Some("sock://localhost:6300")) == null);
    rc := rc + Check(GetServerByAddr(ci, Some("sock://localhost:6300")) == null);
  }

  method ClusterCreateRejectsShapes() returns (rc: int)
    ensures rc == 0
  {
    rc := 0;
    var c := Cluster.CreateSingle(None);
    rc := rc + Check(c == null);

    c := Cluster.Create(None);
    rc := rc + Check(c == null);
    var kinds := NonArrayReplies();
    for n := 0 to |kinds|
      invariant rc == 0
    {
      c := Cluster.Create(Some(kinds[n]));
      rc := rc + Check(c == null);
    }
  }

  method HollowClusterRemoval(ci: ClusterInfo) returns (rc: int)
    requires IsHollowCluster(ci)
    modifies ci, ci.nodes
    ensures rc == 0
  {
    rc := 0;
    var si := new ServerInfo.Zeroed();
    var status := RemoveEntryPtr(null, null);
    rc := rc + Check(status == -EINVAL);
    status := RemoveEntryPtr(ci, null);
    rc := rc + Check(status == -EINVAL);
    status := RemoveEntryPtr(null, si);
    rc := rc + Check(status == -EINVAL);
    status := RemoveEntryPtr(ci, si);
    rc := rc + Check(status == -ENOENT);

    ci.size := 0;
    status := RemoveEntryPtr(ci, si);
    rc := rc + Check(status == -ENOENT);
    ci.size := 5;

    var more := HollowClusterRemovalByIndex(ci);
    rc := rc + more;
  }

  method HollowClusterRemovalByIndex(ci: ClusterInfo) returns (rc: int)
    requires IsHollowCluster(ci)
    modifies ci, ci.nodes
    ensures rc == 0
  {
    rc := 0;
    var status := RemoveEntryIdx(null, 0);
    rc := rc + Check(status == -EINVAL);
    status := RemoveEntryIdx(ci, -1);
    rc := rc + Check(status == -EINVAL);
    status := RemoveEntryIdx(ci, 6);
    rc := rc + Check(status == -EINVAL);
    status := RemoveEntryIdx(ci, 0);
    rc := rc + Check(status == -EINVAL);

    status := Cluster.Destroy(null);
    rc := rc + Check(status == -EINVAL);
  }

  // ---------------------------------------------------------------------------
  // cluster_info_test
  // ---------------------------------------------------------------------------

  /** cluster_info_test: create on malformed replies, then on the three-node
      reply built by CreateServerReply, and lookups by index and by address
      on the result. */
  method ClusterInfoCreateTest() returns (rc: int)
    ensures rc == 0
  {
    rc := ClusterCreateRejectsEntries();

    var ci := CreateThreeNodeCluster();
    rc := rc + Check(ci != null);
    rc := rc + Check(ci.size == 3);
    var more := ThreeNodeLookups(ci);
    rc := rc + more;

    var status := Cluster.Destroy(ci);
    rc := rc + Check(status == 0);
  }

  /** The three-node reply, assembled from CreateServerReply's node replies. */
  method BuildThreeNodeReply() returns (reply: Reply)
    ensures reply == ThreeNodeReply()
  {
    var n0 := CreateServerReply(0, 1);
    var n1 := CreateServerReply(1, 2);
    var n2 := CreateServerReply(2, 4);
    reply := Array([n0, n1, n2]);
  }

  /** create on the three-node reply succeeds and holds the three nodes. */
  method CreateThreeNodeCluster() returns (ci: ClusterInfo?)
    ensures ci != null && fresh(ci) && fresh(ci.nodes) && ci.Valid() && ci.Holds(ThreeNodeSpecs())
    ensures forall i :: 0 <= i < ci.size ==> fresh(ci.nodes[i])
  {
    var reply := BuildThreeNodeReply();
    ThreeNodeReplyParses(reply);
    ci := Cluster.Create(Some(reply));
  }

  method ClusterCreateRejectsEntries() returns (rc: int)
    ensures rc == 0
  {
    rc := 0;
    var c := Cluster.Create(None);
    rc := rc + Check(c == null);

    c := Cluster.Create(Some(Char("")));
    rc := rc + Check(c == null);

    c := Cluster.Create(Some(Array([])));
    rc := rc + Check(c == null);

    c := Cluster.Create(Some(Array(seq(CLUSTER_MAX_SIZE + 1, _ => Unspecified))));
    rc := rc + Check(c == null);

    var n0, n1, n2 := Char(""), Char(""), Char("");
    c := Cluster.Create(Some(Array([n0, n1, n2])));
    rc := rc + Check(c == null);

    n0 := Array([]);
    c := Cluster.Create(Some(Array([n0, n1, n2])));
    rc := rc + Check(c == null);
  }

  method ThreeNodeLookups(ci: ClusterInfo) returns (rc: int)
    requires ci.Valid() && ci.Holds(ThreeNodeSpecs())
    ensures rc == 0
  {
    rc := 0;
    rc := rc + Check(GetServer(null, 0) == null);
    rc := rc + Check(GetServer(ci, -1) == null);
    rc := rc + Check(GetServer(ci, 3) == null);

    rc := rc + Check(GetServerByAddr(null, None) == null);
    rc := rc + Check(GetServerByAddr(null, Some("sock://127.0.0.1:6300")) == null);
    rc := rc + Check(GetServerByAddr(ci, None) == null);

    var si := GetServer(ci, 0);
    rc := rc + Check(si != null);
    HoldsAccessors(ci.nodes[0], ThreeNodeSpecs()[0]);
    rc := rc + Check(GetFirstSlot(si) == 0);
    rc := rc + Check(GetLastSlot(si) == 999);
    rc := rc + Check(Server.GetSize(si) == 1);

    si := LookupSecondNode(ci);
    rc := rc + Check(si != null);
    HoldsAccessors(ci.nodes[1], ThreeNodeSpecs()[1]);
    rc := rc + Check(GetFirstSlot(si) == 1000);
    rc := rc + Check(GetLastSlot(si) == 1999);
    rc := rc + Check(Server.GetSize(si) == 2);

    si := GetServer(ci, 2);
    rc := rc + Check(si != null);
    HoldsAccessors(ci.nodes[2], ThreeNodeSpecs()[2]);
    rc := rc + Check(GetFirstSlot(si) == 2000);
    rc := rc + Check(GetLastSlot(si) == 2999);
    rc := rc + Check(Server.GetSize(si) == 4);
  }

  /** The address "sock://127.0.0.1:6301" first appears in the second node:
      the first node's only endpoint has port 6300. */
  method LookupSecondNode(ci: ClusterInfo) returns (si: ServerInfo?)
    requires ci.Valid() && ci.Holds(ThreeNodeSpecs())
    ensures si == ci.nodes[1]
  {
    TestUrlsText();
    var addr := "sock://127.0.0.1:6301";
    var n0, n1 := ci.nodes[0], ci.nodes[1];
    assert n0 != null && n0.Holds(NodeSpec(0, 999, ["sock://127.0.0.1:6300"]));
    assert n1 != null && n1.Holds(NodeSpec(1000, 1999, [addr, "sock://127.0.0.2:6301"]));
    HoldsAddresses(n0, NodeSpec(0, 999, ["sock://127.0.0.1:6300"]), addr);
    HoldsAddresses(n1, NodeSpec(1000, 1999, [addr, "sock://127.0.0.2:6301"]), addr);
    assert addr != "sock://127.0.0.1:6300" by { assert addr[20] != "sock://127.0.0.1:6300"[20]; }
    assert HasAddr(n1, addr) && !HasAddr(n0, addr);
    si := GetServerByAddr(ci, Some(addr));
  }

  // ---------------------------------------------------------------------------
  // single_node_test
  // ---------------------------------------------------------------------------

  /** single_node_test: create_single at both levels, and destroy. */
  method SingleNodeTest() returns (rc: int)
    ensures rc == 0
  {
    rc := 0;
    var p := Server.CreateSingle(None);
    rc := rc + Check(p == null);
    var c := Cluster.CreateSingle(None);
    rc := rc + Check(c == null);

    var more := SingleServerInfo();
    rc := rc + more;
    more := SingleClusterInfo();
    rc := rc + more;
  }

  method SingleServerInfo() returns (rc: int)
    ensures rc == 0
  {
    rc := 0;
    var si := Server.CreateSingle(Some("sock://localhost:6300"));
    rc := rc + Check(si != null);
    if si == null {
      return;
    }
    rc := rc + Check(si.firstSlot == 0);
    rc := rc + Check(si.lastSlot == HASH_SLOT_MAX - 1);
    rc := rc + Check(GetMaster(si) == Some("sock://localhost:6300"));
    rc := rc + Check(si.servers[0] == Some("sock://localhost:6300"));
    rc := rc + Check(si.serverCount == 1);

    var status := Server.Destroy(si);
    rc := rc + Check(status == 0);
    status := Server.Destroy(null);
    rc := rc + Check(status == -EINVAL);
  }

  method SingleClusterInfo() returns (rc: int)
    ensures rc == 0
  {
    rc := 0;
    var ci := Cluster.CreateSingle(Some("sock://localhost:6300"));
    rc := rc + Check(ci != null);
    if ci == null {
      return;
    }
    rc := rc + Check(ci.size == 1);
    rc := rc + Check(ci.nodes[0] != null);
    rc := rc + Check(ci.nodes[1] == null);
    var node := ci.nodes[0];
    if node == null {
      return;
    }
    rc := rc + Check(node.firstSlot == 0);
    rc := rc + Check(node.lastSlot == HASH_SLOT_MAX - 1);
    rc := rc + Check(GetMaster(node) == Some("sock://localhost:6300"));
    rc := rc + Check(node.servers[0] == Some("sock://localhost:6300"));
    rc := rc + Check(node.serverCount == 1);

    var status := Cluster.Destroy(ci);
    rc := rc + Check(status == 0);
    status := Cluster.Destroy(null);
    rc := rc + Check(status == -EINVAL);
  }
}
