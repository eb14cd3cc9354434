# Redis backend cluster topology, in Dafny

This project models the cluster topology of the data broker's Redis back-end:

- **ServerInfo** (`dbBE_Redis_server_info_t`) is one node. It holds the hash-slot range the node owns, a table of endpoint URLs and the endpoint that is the master.
- **ClusterInfo** (`dbBE_Redis_cluster_info_t`) is a fixed-capacity table of the nodes it owns, plus a count of the valid entries.

The model covers the whole API that `backend/redis/test/backend_redis_server_info_test.c` exercises:

- the null-tolerant accessors;
- `create`, which parses one node entry or a whole cluster-discovery reply;
- `create_single`, for a standalone server;
- `update_master`;
- `remove_entry_idx` and `remove_entry_ptr`;
- `destroy`.

The five C test functions are modelled as methods, and each one is proved to return `rc == 0`. The reply builder `cluster_info_test_create_server` is modelled as a method with a loop. It is proved to build exactly the node entry that a closed-form function describes.

Both structures are classes, because the source updates them in place:

- A ServerInfo's fields are the slot bounds, the endpoint count and the endpoint table (`seq<Option<string>>`, where `None` is a NULL entry). The master is held as an index into that table, so it always refers to one of the node's own strings.
- A ClusterInfo keeps an `array<ServerInfo?>` of `CLUSTER_MAX_SIZE` entries and the size. Removal and destruction change that array in place. `remove_entry_ptr` finds a node by object identity.

The reply tree (`dbBE_Redis_result_t`) is the `Reply` datatype. An absent (NULL) reply is `None`.

Each `create` is specified against a pure function of the reply:

- `Server.ParseNode` for one node entry;
- `Cluster.ParseCluster` for a discovery reply.

The method returns NULL exactly when that function rejects the reply. Otherwise it returns a fresh, valid object holding exactly the slot range and endpoint URLs the function computes.

Endpoint URLs are `"sock://" + host + ":" + decimal port`. The model proves that this string determines the host and the port. So, for nodes built by `create` from a discovery reply, the exact-string lookup `get_server_by_addr` looks a node up by host and port. A node built by `create_single` stores its url verbatim, and no lemma relates that url to a host and a port.

Modules and files:

| file | module | contents |
|---|---|---|
| `redis_types.dfy` | `RedisTypes` | Option, Reply, constants, slot and port ranges |
| `endpoint.dfy` | `Endpoint` | URL formatting, its inverse, round-trip and injectivity |
| `server_info.dfy` | `Server` | ServerInfo and its operations |
| `cluster_info.dfy` | `Cluster` | ClusterInfo and its operations |
| `server_info_test.dfy` | `ServerInfoTest` | the test functions and the reply builder |

## Model

| member | source | states |
|---|---|---|
| Endpoint.Decimal | backend/redis/test/backend_redis_server_info_test.c:172-179 | The port's text is at least one decimal digit. It has no leading zero unless the port is 0. |
| Endpoint.DecimalRoundTrip | backend/redis/test/backend_redis_server_info_test.c:172-179 | Reading back the decimal text of a port gives the port. |
| Endpoint.FormatUrl | backend/redis/test/backend_redis_server_info_test.c:172-179 | Builds the endpoint URL "sock://" + host + ":" + decimal port, which is how every stored endpoint is written. It has no contract of its own. Its properties are proved in UrlRoundTrip (its inverse) and FormatUrlInjective. |
| Endpoint.ParseUrl | backend/redis/test/backend_redis_server_info_test.c:172-179 | The inverse of FormatUrl. It splits a URL after "sock://" at the last ':'. It has no contract of its own. It exists to state UrlRoundTrip, and no source code parses URLs. |
| Endpoint.LastColon | backend/redis/test/backend_redis_server_info_test.c:172-179 | Proof helper of ParseUrl and UrlRoundTrip; no source code searches for a colon. It returns the position of the last ':' in a string, or None exactly when there is none. |
| Endpoint.UrlRoundTrip | backend/redis/test/backend_redis_server_info_test.c:172-179 | Splitting "sock://host:port" at its last colon gives back the host and port it was built from. |
| Endpoint.FormatUrlInjective | backend/redis/test/backend_redis_server_info_test.c:351-352 | Two endpoint URLs are equal if and only if their hosts and their ports are equal. An exact-string address lookup therefore identifies host and port. |
| Server.GetSize | backend/redis/test/backend_redis_server_info_test.c:45-47 | Returns 0 for a NULL node, otherwise the endpoint count. On a valid node the count is between 1 and CLUSTER_MAX_REPLICA. |
| Server.GetFirstSlot | backend/redis/test/backend_redis_server_info_test.c:49-51 | Returns HASH_SLOT_INVAL for a NULL node, otherwise the first slot. On a valid node that slot is in the keyspace and differs from HASH_SLOT_INVAL. |
| Server.GetLastSlot | backend/redis/test/backend_redis_server_info_test.c:53-55 | Returns HASH_SLOT_INVAL for a NULL node, otherwise the last slot. On a valid node first <= last < HASH_SLOT_MAX. |
| Server.GetReplica | backend/redis/test/backend_redis_server_info_test.c:57-62 | Returns NULL for a NULL node or an index outside the table's capacity, otherwise the table entry. On a valid node the result is non-NULL exactly for the indices below the endpoint count. |
| Server.GetMaster | backend/redis/test/backend_redis_server_info_test.c:64-66 | Returns NULL for a NULL node or an unassigned master, otherwise the entry the master designates. On a valid node it is non-NULL and one of the populated endpoints. |
| Server.UpdateMaster | backend/redis/test/backend_redis_server_info_test.c:68-72 | Returns -EINVAL for a NULL node or an index outside [0, count), and then nothing changes. On success it moves only the master, so get_master then equals get_replica(index). Validity is preserved. |
| Server.Destroy | backend/redis/test/backend_redis_server_info_test.c:91-92 | Returns -EINVAL for NULL. Otherwise it returns 0 and releases every endpoint string: the table is empty, the count is 0 and there is no master. |
| Server.ParseEndpoints | backend/redis/test/backend_redis_server_info_test.c:154-172 | Accepts a list of endpoint elements exactly when each is an array [host string, integer port in range, ...]. The result is one URL per element, in order. |
| Server.ParseNode | backend/redis/test/backend_redis_server_info_test.c:102-172 | Accepts a node entry exactly when it is well formed. That means an array of at least 3 elements, integer bounds with 0 <= start <= end < HASH_SLOT_MAX, at most CLUSTER_MAX_REPLICA endpoints, and every endpoint well formed. The result is then the bounds and one URL per endpoint. |
| Server.Create | backend/redis/test/backend_redis_server_info_test.c:118-181 | Returns NULL exactly when ParseNode rejects the reply. Otherwise it returns a fresh valid node with the parsed bounds, count and URLs, empty entries beyond them, and the first endpoint as master. |
| Server.CreateSingle | backend/redis/test/backend_redis_server_info_test.c:391-399 | Returns NULL exactly for a NULL url. Otherwise it returns a fresh valid node spanning [0, HASH_SLOT_MAX-1], whose only endpoint and master is the url verbatim. |
| Server.HoldsAccessors | backend/redis/test/backend_redis_server_info_test.c:345-361 | For a node built from a parsed entry, getsize, the slot getters, get_master and get_replica answer the entry's count, bounds, first URL and URLs. |
| Server.HoldsAddresses | backend/redis/test/backend_redis_server_info_test.c:351-352 | A node built from a parsed entry has a URL among its endpoints if and only if the entry lists it. |
| Cluster.GetSize | backend/redis/test/backend_redis_server_info_test.c:200-203 | Returns 0 for a NULL cluster, otherwise the recorded size, which is within [0, CLUSTER_MAX_SIZE]. |
| Cluster.GetServer | backend/redis/test/backend_redis_server_info_test.c:205-209 | Non-NULL exactly when the cluster is present, 0 <= index < size and that entry is populated. It is then that entry. |
| Cluster.ClusterInfo.ScanFrom | backend/redis/test/backend_redis_server_info_test.c:211-215 | Returns the first entry from i on, below size, that has the address among its endpoints. None means that no entry in that range has it. |
| Cluster.GetServerByAddr | backend/redis/test/backend_redis_server_info_test.c:211-215 | Returns NULL for a NULL cluster or address, or when no node below size has the address. Otherwise it is the first node in table order that has it. |
| Cluster.ParseNodes | backend/redis/test/backend_redis_server_info_test.c:314-323 | Accepts a list of node entries exactly when every entry is accepted. The result is one node per entry, in order. |
| Cluster.ParseCluster | backend/redis/test/backend_redis_server_info_test.c:296-323 | Accepts exactly an array of 1 to CLUSTER_MAX_SIZE node entries that all parse. The result is one node per entry, in order. |
| Cluster.Create | backend/redis/test/backend_redis_server_info_test.c:220-229 | Returns NULL exactly when ParseCluster rejects the reply. On that path the body destroys the partial cluster; no ensures clause states this. Otherwise it returns a fresh valid cluster of distinct fresh nodes, each holding the corresponding parsed node. |
| Cluster.CreateSingle | backend/redis/test/backend_redis_server_info_test.c:404-415 | Returns NULL exactly for a NULL url. Otherwise it returns a fresh valid one-node cluster whose node spans every slot with the url as its only endpoint. |
| Cluster.RemoveEntryIdx | backend/redis/test/backend_redis_server_info_test.c:244-248 | Returns -EINVAL, changing nothing, for a NULL cluster, an index outside [0, size) or an unpopulated entry. On success the entry's node is destroyed, later entries move down one place, the last place becomes NULL and size drops by one. Other nodes are unchanged and validity is preserved. |
| Cluster.RemoveEntryPtr | backend/redis/test/backend_redis_server_info_test.c:231-242 | Returns -EINVAL for a NULL argument. Returns -ENOENT when the node is not among the first size entries; this includes size 0. In both cases nothing changes. Otherwise it removes the node at its first position, as RemoveEntryIdx does. On a valid cluster the node is then no longer in the table. |
| Cluster.Destroy | backend/redis/test/backend_redis_server_info_test.c:250-251 | Returns -EINVAL for NULL. Otherwise it returns 0, destroys every node the table held, and leaves every entry NULL with size 0. |
| ServerInfoTest.CreateServerReply | backend/redis/test/backend_redis_server_info_test.c:258-290 | The builder's loop produces the node entry [1000*idx, 1000*idx+999, scnt endpoints]. Endpoint j has host "127.0.0.1" with its last character raised by j, and port 6300+idx. |
| ServerInfoTest.TestNodeReplyParses | backend/redis/test/backend_redis_server_info_test.c:258-290 | Every entry the builder produces, with a slot block inside the keyspace and 1..CLUSTER_MAX_REPLICA endpoints, is accepted with that block and one URL per endpoint. |
| ServerInfoTest.ThreeNodeReplyParses | backend/redis/test/backend_redis_server_info_test.c:325-330 | The reply built from nodes (0,1), (1,2) and (2,4) is accepted as the three nodes [0,999], [1000,1999] and [2000,2999], with 1, 2 and 4 endpoints. |
| ServerInfoTest.TestUrlsText | backend/redis/test/backend_redis_server_info_test.c:351-352 | The first node's only URL is "sock://127.0.0.1:6300", and the second node's URLs are "sock://127.0.0.1:6301" and "sock://127.0.0.2:6301". |
| ServerInfoTest.LookupSecondNode | backend/redis/test/backend_redis_server_info_test.c:351-352 | On the three-node cluster, get_server_by_addr("sock://127.0.0.1:6301") is the second node. |
| ServerInfoTest.ServerInfoUnitTests | backend/redis/test/backend_redis_server_info_test.c:35-96 | The server-info unit test returns 0. |
| ServerInfoTest.HollowNodeAccessors | backend/redis/test/backend_redis_server_info_test.c:45-66 | Every accessor check on NULL and on the zero-filled node with count 5 passes. |
| ServerInfoTest.HollowNodeUpdateMaster | backend/redis/test/backend_redis_server_info_test.c:68-72 | update_master returns -EINVAL for NULL, -1 and 6, and 0 for index 0. |
| ServerInfoTest.ServerCreateRejectsShapes | backend/redis/test/backend_redis_server_info_test.c:74-92 | create returns NULL for every non-array type and for a one-element array. create_single(NULL) is NULL, and destroy(NULL) is -EINVAL. |
| ServerInfoTest.ServerInfoCreateTest | backend/redis/test/backend_redis_server_info_test.c:98-191 | The server-info create test returns 0. |
| ServerInfoTest.ServerCreateRejectsSlots | backend/redis/test/backend_redis_server_info_test.c:102-146 | create returns NULL for a NULL reply, a string reply, a two-element array, wrongly typed bounds and all three invalid slot ranges. |
| ServerInfoTest.ServerCreateRejectsMaster | backend/redis/test/backend_redis_server_info_test.c:148-170 | create returns NULL for each malformed master endpoint, including port 540354. |
| ServerInfoTest.ServerCreateAccepts | backend/redis/test/backend_redis_server_info_test.c:172-183 | [0, 16383, ["127.0.0.1", 6300, ...]] gives slots 0..16383, one server "sock://127.0.0.1:6300", a NULL second entry and master servers[0]. Its destroy returns 0. |
| ServerInfoTest.ClusterInfoUnitTests | backend/redis/test/backend_redis_server_info_test.c:194-255 | The cluster-info unit test returns 0. |
| ServerInfoTest.HollowClusterLookups | backend/redis/test/backend_redis_server_info_test.c:200-215 | getsize, get_server and get_server_by_addr give 0 or NULL on NULL, and 5 or NULL on the zero-filled cluster of size 5. |
| ServerInfoTest.ClusterCreateRejectsShapes | backend/redis/test/backend_redis_server_info_test.c:217-229 | create_single(NULL) is NULL. create is NULL on NULL and on every non-array type. |
| ServerInfoTest.HollowClusterRemoval | backend/redis/test/backend_redis_server_info_test.c:231-242 | remove_entry_ptr returns -EINVAL for each NULL argument, and -ENOENT for a node not in the table at size 5 and at size 0. |
| ServerInfoTest.HollowClusterRemovalByIndex | backend/redis/test/backend_redis_server_info_test.c:244-251 | remove_entry_idx returns -EINVAL for NULL, -1, 6 and an unpopulated index 0. destroy(NULL) is -EINVAL. |
| ServerInfoTest.ClusterInfoCreateTest | backend/redis/test/backend_redis_server_info_test.c:292-379 | The cluster-info create test returns 0. |
| ServerInfoTest.ClusterCreateRejectsEntries | backend/redis/test/backend_redis_server_info_test.c:296-323 | create returns NULL for NULL, a string, an empty array, CLUSTER_MAX_SIZE+1 entries, string entries and an empty node entry. |
| ServerInfoTest.BuildThreeNodeReply | backend/redis/test/backend_redis_server_info_test.c:325-327 | The three built node entries form the three-node reply. |
| ServerInfoTest.CreateThreeNodeCluster | backend/redis/test/backend_redis_server_info_test.c:329-331 | create on the three-node reply gives a fresh valid cluster holding the three nodes, so its size is 3. |
| ServerInfoTest.ThreeNodeLookups | backend/redis/test/backend_redis_server_info_test.c:335-361 | Every lookup check on the three-node cluster passes: the failure cases, and slot bounds and sizes of nodes 0, 1 and 2. |
| ServerInfoTest.SingleNodeTest | backend/redis/test/backend_redis_server_info_test.c:381-422 | The single-node test returns 0. |
| ServerInfoTest.SingleServerInfo | backend/redis/test/backend_redis_server_info_test.c:391-402 | create_single("sock://localhost:6300") gives slots [0, HASH_SLOT_MAX-1], with the url as master and servers[0], and count 1. destroy returns 0, and -EINVAL on NULL. |
| ServerInfoTest.SingleClusterInfo | backend/redis/test/backend_redis_server_info_test.c:404-418 | The single-node cluster has size 1, a populated nodes[0], a NULL nodes[1], and nodes[0] as create_single builds it. destroy returns 0, and -EINVAL on NULL. |

## Left out

- The implementation files are not part of this model: `server_info.c`, `cluster_info.c`, their headers and `result.h`. The behaviour is reconstructed from the unit tests and the documented API contract.
- Constants the visible files do not define have assumed values: `HASH_SLOT_INVAL = HASH_SLOT_MAX + 1`, `CLUSTER_MAX_REPLICA = 8`, `CLUSTER_MAX_SIZE = 1024`, a valid port range of [0, 65535], `EINVAL = 22` and `ENOENT = 2`. Only their roles matter to the proofs.
- The endpoint table is taken to hold `CLUSTER_MAX_REPLICA` entries. A node entry listing more endpoints than that is rejected. The header may reserve one more entry for the master, and it is not part of this model.
- Memory management is not modelled: allocation failure, leaks, `strdup` ownership, `free` and `dbBE_Redis_result_cleanup`. `destroy` is modelled as releasing the node's endpoint strings, which empties its table. Freeing the structure itself, and use after destroy, are not modelled.
- `DBR_SERVER_URL_MAX_LENGTH` is not modelled: the `snprintf` truncation of long URLs and the length bound in the `strncmp` comparisons. URLs are unbounded strings, and comparisons are exact.
- C `int` is unbounded in the model. All slot and port values that are checked lie in ranges where 32-bit arithmetic cannot wrap.
- The third element of an endpoint (the node id) is not inspected by `create`.
- The design's invariant that each occupied hash slot is owned by at most one node is not checked. `create` accepts a reply whose entries have overlapping slot ranges, and `ClusterInfo.Valid()` does not include disjointness. No code shown checks for overlap, so adding the check would make the model unfaithful.
- Cluster.RemoveEntryIdx: the order-preserving shift (later entries move down one place) is a reconstruction choice. The success path of removal is not shown, and the design only says that removal compacts the table. Moving the last entry into the gap would compact it too.
- Uninitialised memory in the C tests is replaced by a chosen value, since its contents are undefined there:
  - the elements of a reply array that were never written are modelled as an unspecified reply;
  - string payloads that were never written are modelled as the empty string.
- The control flow of the `TEST`, `TEST_NOT`, `TEST_NOT_RC` and `TEST_BREAK` macros of `test/test_utils.h` is modelled by `Check` and an early return. Their printing, `printf` and `main` are left out.
- The file-shipping back-end (`backend/fship/fship.c`) is left out. So are key hashing, request routing, queues, transport and concurrency, which lie outside the topology model.
- The address `"sock://127.0.0.1:6301"` looked up in the cluster test is the first endpoint (the master) of the second node, not one of its replicas. The model follows the test code here.
