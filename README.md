# scality_exporter: the projection of Raft sessions into gauges

The exporter asks a Scality `repd` for its livecheck, a list of Raft sessions,
and republishes it as two Prometheus gauge vectors:

- `scality_metadata_replication_replication_status{id, leader, port}`: whether
  a session can replicate;
- `scality_metadata_replication_peer_connection{id, leader, port,
  connection_to, connection_path}`: whether a session is connected to a peer.

This project models the step in `main` that turns the decoded sessions into
updates on those two vectors, and proves what that step does to every entry.

- `Decimal` renders integers the way `strconv.Itoa` does. Its parser reads
  them back, so a rendered label loses nothing.
- `Sessions` holds the decoded `raftSession` record (main.go:18-27) as the
  datatypes `RaftSession` and `Leader`, and `boolToFloat`.
- `Labels` builds the label tuples of both families. `connection_path` is
  `host:port/peer`. A parser shows that the path still encodes host, port and
  peer, whatever characters the host contains.
- `Projection` holds the specification. `ProjectedStatus` and
  `ProjectedPeers` give both tables after one projection, as functions of the
  tables before it. The lemmas prove from them the per-entry growth, which
  entries exist, that nothing else changes, accumulation over repeated
  projections, and order independence.
- `Exporter` holds the registry as a class with one map field per gauge
  vector. Its `Project` method runs the two nested loops of `main`. The inner
  loop visits the peers of a session in an arbitrary order, as Go's map
  iteration does. The method is proved against the specification functions
  for every such order.

Values are naturals: each `Add` adds 0 or 1. A label tuple that was never
created reads 0. Entries are kept in the map domain, because
`WithLabelValues(...).Add(0)` still creates the instance.

`main.go` has no poll loop. It fetches once (line 81), projects once and then
serves forever (line 141). Every fetch error calls `log.Fatal`. The model
follows the code: `Exporter.Run` builds the registry and projects once.
`Project` can still be called again, so the accumulation lemmas cover
repeated projections.

## Model

| member | source | states |
|---|---|---|
| `Sessions.BoolToFloat` | main.go:31-36 | the increment is 1 exactly when the status is true and 0 otherwise; it is never anything else |
| `Decimal.NatDigits` | main.go:118-121 | the decimal rendering of a natural is non-empty, all digits, and starts with '0' only for 0 itself |
| `Decimal.Itoa` | main.go:118-121 | `strconv.Itoa` gives a non-empty string of digits, with a leading '-' exactly for negative numbers, and in canonical form: "0" is the only rendering starting with '0', and a negative number's digits do not start with '0' |
| `Decimal.ItoaRoundTrip` | main.go:118-121 | parsing the rendering of any integer gives that integer back |
| `Decimal.ItoaInjective` | main.go:118-121 | two integers have the same label exactly when they are equal |
| `Labels.ConnectionPath` | main.go:122-127 | the connection_path label is host + ':' + Itoa(port) + '/' + Itoa(peer) |
| `Labels.StatusLabels` | main.go:131-134 | a session's replication_status tuple is (Itoa(id), leader host, Itoa(leader port)) |
| `Labels.PeerLabels` | main.go:117-127 | a session's peer_connection tuple towards peer k is (Itoa(id), leader host, Itoa(leader port), Itoa(k), ConnectionPath(host, port, k)) |
| `Labels.ConnectionPathRoundTrip` | main.go:122-127 | the `host:port/peer` path reads back into its host, port and peer, for any host string |
| `Labels.ConnectionPathInjective` | main.go:122-127 | two connection paths are equal exactly when their (host, port, peer) triples are equal |
| `Labels.StatusLabelsIdentify` | main.go:131-134 | two replication_status label tuples are equal exactly when the sessions share id and leader |
| `Labels.PeerLabelsIdentify` | main.go:117-127 | two peer_connection label tuples are equal exactly when they share id, leader and peer |
| `Projection.Added` | main.go:128 | `WithLabelValues(...).Add(v)` creates the instance if it is missing, raises it by v and leaves every other instance alone |
| `Projection.ProjectedStatus` | main.go:115-136 | replication_status after the outer loop: the sessions in order, each adding BoolToFloat(ableToReplicate) to its status tuple |
| `Projection.ApplyPeers` | main.go:116-128 | peer_connection after the inner loop over a set of peers: each listed peer's tuple exists and has grown by 1 exactly when that peer is connected; the entries are the old ones plus those tuples |
| `Projection.ProjectedPeers` | main.go:115-136 | peer_connection after the outer loop: the sessions in order, each applying its inner loop over all its peers |
| `Projection.ApplyNoPeer` | main.go:116 | an inner loop with no peer leaves peer_connection as it was |
| `Projection.ApplyOnePeer` | main.go:116-128 | visiting one peer is one `Add(boolToFloat(v))` on that peer's label tuple |
| `Projection.ApplyNextPeer` | main.go:116-128 | each step of the inner loop adds the visited peer's increment to what the earlier steps built |
| `Projection.ApplyPeersSplit` | main.go:116-128 | visiting the peers a and then the peers b gives the same table as visiting a + b |
| `Projection.PeerUpdatesCommute` | main.go:116-128 | the table after the inner loop does not depend on the order of Go's map iteration |
| `Projection.SessionPeerStep` | main.go:116-128 | one session's inner loop raises the (id, leader, peer) entry by 1 exactly when the session has that id and leader and lists the peer as connected, and by 0 otherwise |
| `Projection.ReplicationStatusGrowth` | main.go:131-135 | after a projection, the (Itoa(id), host, Itoa(port)) entry has grown by the number of sessions with that id and leader that can replicate |
| `Projection.PeerConnectionGrowth` | main.go:116-128 | after a projection, the (Itoa(id), host, Itoa(port), Itoa(k), host:port/k) entry has grown by the number of sessions with that id and leader connected to k; a disconnected peer adds 0 |
| `Projection.StatusEntries` | main.go:131-135 | after a projection, the replication_status entries are the old ones plus one per (id, leader) that the sessions name; none is removed |
| `Projection.PeerEntries` | main.go:116-128 | after a projection, the peer_connection entries are the old ones plus one per listed peer, connected or not; none is removed |
| `Projection.StatusFrame` | main.go:115-136 | no replication_status entry is removed or decreases, and an entry no session names keeps its value |
| `Projection.PeerFrame` | main.go:115-136 | no peer_connection entry is removed or decreases, and an entry no listed peer names keeps its value |
| `Projection.EmptyConnectionsOnlyStatus` | main.go:115-136 | a session with an empty `IsConnected` leaves peer_connection unchanged and still adds its replication_status update |
| `Projection.StatusAccumulates` | main.go:135 | n projections of the same sessions raise a replication_status entry by n times what one projection adds |
| `Projection.PeerAccumulates` | main.go:128 | n projections of the same sessions raise a peer_connection entry by n times what one projection adds |
| `Projection.SameSessionNTimes` | main.go:131-135 | a session that can replicate, projected n times, leaves its entry n above where it started, not 1 |
| `Projection.LivecheckExample` | main.go:115-136 | session 1 led by 10.0.0.1:9000, peer 2 connected, peer 3 not, can replicate: from empty tables, status reads 1, peer 2 reads 1, and peer 3 exists and reads 0 |
| `Exporter.Registry.constructor` | main.go:83-113 | both gauge vectors start with no instance |
| `Exporter.Registry.AddReplicationStatus` | main.go:131-135 | `rs.WithLabelValues(...).Add(v)` on the replication_status map; peer_connection is untouched |
| `Exporter.Registry.AddPeerConnection` | main.go:117-128 | `rc.WithLabelValues(...).Add(v)` on the peer_connection map; replication_status is untouched |
| `Exporter.Registry.ProjectPeers` | main.go:116-129 | the inner loop, visiting the peers in any order, leaves peer_connection equal to `ApplyPeers` of the old table and leaves replication_status alone |
| `Exporter.Registry.Project` | main.go:115-136 | the nested loops leave both maps equal to `ProjectedStatus` and `ProjectedPeers` of the old maps |
| `Exporter.Run` | main.go:83-136 | registering the vectors and projecting once gives the projection of the sessions into empty tables |

## Left out

- `getScalityLiveCheck` (main.go:38-70) is not modelled. It is network I/O with a 5-second timeout, then JSON decoding. Each of its failures calls `log.Fatal`, which ends the process. The model starts from the decoded session list.
- Flag parsing and URL formatting (main.go:73-79) are not modelled. They are configuration glue.
- The HTTP server and the `promhttp` exposition (main.go:138-141) are not modelled. They are I/O done by a library.
- Gauge values are `float64` in the source and naturals here. Every increment is 0 or 1, so the two agree until a value passes 2^53.
- Go's `int` is 32 or 64 bits wide depending on the platform, and the model's integers are unbounded. `encoding/json` rejects out-of-range numbers before the projection runs, so the projection never sees them.
- Converting the JSON string keys of `isConnected` to `int` is done by `encoding/json` and is not modelled.
- The `Error` field of a session (main.go:26) is never read, so it is not modelled.
- Thread safety of `GaugeVec`, the concurrent scrape handler, and the metric names and help texts are left out. The projection runs once, before the server starts.
- Prometheus's global default registry is modelled as one `Registry` object. Registration failures in `promauto` (a panic on duplicate registration) are not modelled.
- The inner loop picks the next peer nondeterministically. This covers every order Go's map iteration might use, not the runtime's particular randomisation.
