/**
 What one pass of the projection does to the two gauge families, stated as
 functions of the tables before the pass and of the decoded sessions, and the
 properties of those functions. A table maps a label tuple to its value; a
 tuple that was never created reads 0.
 */
module Projection {
  import opened Decimal
  import opened Sessions
  import opened Labels

  /** The value a gauge reads for a label tuple; one never created reads 0. */
  function Value<K>(m: map<K, nat>, key: K): nat {
    if key in m then m[key] else 0
  }

  /**
   WithLabelValues(key).Add(v): the entry is created at 0 if it is missing,
   then v is added to it; every other entry keeps its value.
   */
  function Added<K>(m: map<K, nat>, key: K, v: nat): (r: map<K, nat>)
    ensures r.Keys == m.Keys + {key}
    ensures Value(r, key) == Value(m, key) + v
    ensures forall other :: other in m && other != key ==> r[other] == m[other]
  {
    m[key := Value(m, key) + v]
  }

  // ----- replication_status -----

  /** replication_status once the outer loop has handled every session of ss, in order. */
  function ProjectedStatus(m: map<StatusKey, nat>, ss: seq<RaftSession>): map<StatusKey, nat>
    decreases |ss|
  {
    if ss == [] then m
    else
      var s := ss[|ss| - 1];
      Added(ProjectedStatus(m, ss[..|ss| - 1]), StatusLabels(s.id, s.leader), BoolToFloat(s.ableToReplicate))
  }

  /** Positions in ss of the sessions with this id and leader that are able to replicate. */
  ghost function Replicating(ss: seq<RaftSession>, id: int, leader: Leader): set<nat> {
    set i: nat | i < |ss| && ReplicatesAs(ss[i], id, leader)
  }

  /** Whether s has this id and leader and is able to replicate. */
  predicate ReplicatesAs(s: RaftSession, id: int, leader: Leader) {
    s.id == id && s.leader == leader && s.ableToReplicate
  }

  /** The replication_status label tuples that the sessions of ss name. */
  ghost function StatusKeysOf(ss: seq<RaftSession>): set<StatusKey> {
    set i | 0 <= i < |ss| :: StatusLabels(ss[i].id, ss[i].leader)
  }

  // ----- peer_connection -----

  /** The peer_connection label tuples that the peers ks of session s name. */
  ghost function PeerKeys(s: RaftSession, ks: set<int>): set<PeerKey> {
    set k | k in ks && k in s.isConnected :: PeerLabels(s.id, s.leader, k)
  }

  /**
   Whether the peer that the connection_to label of key names is one of the
   peers ks of s, is connected, and gives exactly the labels key.
   */
  predicate ConnectedVia(s: RaftSession, ks: set<int>, key: PeerKey) {
    match ParseInt(key.connectionTo)
    case Some(k) => k in ks && k in s.isConnected && s.isConnected[k] && PeerLabels(s.id, s.leader, k) == key
    case None => false
  }

  /**
   peer_connection once the inner loop has handled the peers ks of session s,
   in whatever order: every tuple they name exists, and has grown by one
   exactly when its peer is connected.
   */
  ghost function ApplyPeers(m: map<PeerKey, nat>, s: RaftSession, ks: set<int>): (r: map<PeerKey, nat>)
    ensures r.Keys == m.Keys + PeerKeys(s, ks)
  {
    map key | key in m.Keys + PeerKeys(s, ks) :: Value(m, key) + (if ConnectedVia(s, ks, key) then 1 else 0)
  }

  /** peer_connection once the outer loop has handled every session of ss, in order. */
  ghost function ProjectedPeers(m: map<PeerKey, nat>, ss: seq<RaftSession>): map<PeerKey, nat>
    decreases |ss|
  {
    if ss == [] then m
    else
      var s := ss[|ss| - 1];
      ApplyPeers(ProjectedPeers(m, ss[..|ss| - 1]), s, s.isConnected.Keys)
  }

  /** Positions in ss of the sessions with this id and leader that are connected to peer. */
  ghost function Connecting(ss: seq<RaftSession>, id: int, leader: Leader, peer: int): set<nat> {
    set i: nat | i < |ss| && ConnectsAs(ss[i], id, leader, peer)
  }

  /** Whether s has this id and leader and lists peer as connected. */
  predicate ConnectsAs(s: RaftSession, id: int, leader: Leader, peer: int) {
    s.id == id && s.leader == leader && peer in s.isConnected && s.isConnected[peer]
  }

  /** The peer_connection label tuples that the sessions of ss name. */
  ghost function PeerKeysOf(ss: seq<RaftSession>): set<PeerKey> {
    set i, k | 0 <= i < |ss| && k in ss[i].isConnected :: PeerLabels(ss[i].id, ss[i].leader, k)
  }

  lemma ApplyPeersValue(m: map<PeerKey, nat>, s: RaftSession, ks: set<int>, key: PeerKey)
    ensures Value(ApplyPeers(m, s, ks), key) == Value(m, key) + (if ConnectedVia(s, ks, key) then 1 else 0)
  {
    if ConnectedVia(s, ks, key) {
      assert key in PeerKeys(s, ks);
    }
  }

  /** A peer of s, through its own labels, counts exactly when it is connected. */
  lemma ConnectedViaPeer(s: RaftSession, ks: set<int>, k: int)
    requires k in ks && k in s.isConnected
    ensures ConnectedVia(s, ks, PeerLabels(s.id, s.leader, k)) <==> s.isConnected[k]
  {
    ItoaRoundTrip(k);
  }

  /** Handling no peer leaves the table as it was. */
  lemma ApplyNoPeer(m: map<PeerKey, nat>, s: RaftSession)
    ensures ApplyPeers(m, s, {}) == m
  {
    assert PeerKeys(s, {}) == {};
  }

  /** Handling one peer k is one WithLabelValues(...).Add(boolToFloat(v)) call. */
  lemma ApplyOnePeer(m: map<PeerKey, nat>, s: RaftSession, k: int)
    requires k in s.isConnected
    ensures ApplyPeers(m, s, {k}) == Added(m, PeerLabels(s.id, s.leader, k), BoolToFloat(s.isConnected[k]))
  {
    var key := PeerLabels(s.id, s.leader, k);
    assert PeerKeys(s, {k}) == {key};
    var r := ApplyPeers(m, s, {k});
    ConnectedViaPeer(s, {k}, k);
    forall other | other in r.Keys
      ensures r[other] == Added(m, key, BoolToFloat(s.isConnected[k]))[other]
    {
      assert ConnectedVia(s, {k}, other) <==> other == key && s.isConnected[k];
    }
  }

  /**
   The updates of the inner loop commute: handling the peers a, then the peers
   b, is handling a + b at once.
   */
  lemma ApplyPeersSplit(m: map<PeerKey, nat>, s: RaftSession, a: set<int>, b: set<int>)
    requires a !! b
    ensures ApplyPeers(ApplyPeers(m, s, a), s, b) == ApplyPeers(m, s, a + b)
  {
    var left := ApplyPeers(ApplyPeers(m, s, a), s, b);
    var right := ApplyPeers(m, s, a + b);
    PeerKeysUnion(s, a, b);
    forall key | key in right.Keys
      ensures left[key] == right[key]
    {
      ApplyPeersSplitAt(m, s, a, b, key);
    }
  }

  lemma ApplyPeersSplitAt(m: map<PeerKey, nat>, s: RaftSession, a: set<int>, b: set<int>, key: PeerKey)
    requires a !! b
    ensures Value(ApplyPeers(ApplyPeers(m, s, a), s, b), key) == Value(ApplyPeers(m, s, a + b), key)
  {
    ApplyPeersValue(ApplyPeers(m, s, a), s, b, key);
    ApplyPeersValue(m, s, a, key);
    ApplyPeersValue(m, s, a + b, key);
    ConnectedViaUnion(s, a, b, key);
  }

  lemma PeerKeysUnion(s: RaftSession, a: set<int>, b: set<int>)
    ensures PeerKeys(s, a + b) == PeerKeys(s, a) + PeerKeys(s, b)
  {
  }

  lemma ConnectedViaUnion(s: RaftSession, a: set<int>, b: set<int>, key: PeerKey)
    requires a !! b
    ensures (if ConnectedVia(s, a + b, key) then 1 else 0)
            == (if ConnectedVia(s, a, key) then 1 else 0) + (if ConnectedVia(s, b, key) then 1 else 0)
  {
  }

  /** One more step of the inner loop: visiting peer k adds its increment. */
  lemma ApplyNextPeer(m: map<PeerKey, nat>, s: RaftSession, visited: set<int>, k: int)
    requires k in s.isConnected && k !in visited
    ensures ApplyPeers(m, s, visited + {k})
            == Added(ApplyPeers(m, s, visited), PeerLabels(s.id, s.leader, k), BoolToFloat(s.isConnected[k]))
  {
    ApplyPeersSplit(m, s, visited, {k});
    ApplyOnePeer(ApplyPeers(m, s, visited), s, k);
  }

  /**
   The final table does not depend on the order in which Go's map iteration
   visits the peers of a session.
   */
  lemma PeerUpdatesCommute(m: map<PeerKey, nat>, s: RaftSession, a: set<int>, b: set<int>)
    requires a !! b
    ensures ApplyPeers(ApplyPeers(m, s, a), s, b) == ApplyPeers(ApplyPeers(m, s, b), s, a)
  {
    ApplyPeersSplit(m, s, a, b);
    ApplyPeersSplit(m, s, b, a);
    assert a + b == b + a;
  }

  // ----- what a projection does to each entry -----

  /**
   The replication_status entry of (id, leader) grows by exactly the number of
   sessions with that id and leader that are able to replicate.
   */
  lemma {:induction false} ReplicationStatusGrowth(m: map<StatusKey, nat>, ss: seq<RaftSession>, id: int, leader: Leader)
    ensures Value(ProjectedStatus(m, ss), StatusLabels(id, leader))
            == Value(m, StatusLabels(id, leader)) + |Replicating(ss, id, leader)|
  {
    if ss == [] {
      assert Replicating(ss, id, leader) == {};
    } else {
      var n := |ss| - 1;
      ReplicationStatusGrowth(m, ss[..n], id, leader);
      StatusLabelsIdentify(ss[n].id, ss[n].leader, id, leader);
      ReplicatingSnoc(ss, id, leader);
    }
  }

  lemma ReplicatingSnoc(ss: seq<RaftSession>, id: int, leader: Leader)
    requires ss != []
    ensures |Replicating(ss, id, leader)|
            == |Replicating(ss[..|ss| - 1], id, leader)| + (if ReplicatesAs(ss[|ss| - 1], id, leader) then 1 else 0)
  {
    var n := |ss| - 1;
    var prefix := ss[..n];
    var small, big := Replicating(prefix, id, leader), Replicating(ss, id, leader);
    var extra: set<nat> := if ReplicatesAs(ss[n], id, leader) then {n} else {};
    forall i | i in big
      ensures i in small + extra
    {
      if i < n {
        assert prefix[i] == ss[i];
      }
    }
    forall i | i in small + extra
      ensures i in big
    {
      if i < n {
        assert prefix[i] == ss[i];
      }
    }
    assert big == small + extra;
    assert small !! extra;
  }

  /**
   The peer_connection entry of (id, leader, peer) grows by exactly the number
   of sessions with that id and leader that are connected to peer; a session
   that lists peer as disconnected adds 0.
   */
  lemma {:induction false} PeerConnectionGrowth(m: map<PeerKey, nat>, ss: seq<RaftSession>, id: int, leader: Leader, peer: int)
    ensures Value(ProjectedPeers(m, ss), PeerLabels(id, leader, peer))
            == Value(m, PeerLabels(id, leader, peer)) + |Connecting(ss, id, leader, peer)|
  {
    if ss == [] {
      assert Connecting(ss, id, leader, peer) == {};
    } else {
      var n := |ss| - 1;
      var prefix, s := ss[..n], ss[n];
      assert ProjectedPeers(m, ss) == ApplyPeers(ProjectedPeers(m, prefix), s, s.isConnected.Keys);
      PeerConnectionGrowth(m, prefix, id, leader, peer);
      SessionPeerStep(ProjectedPeers(m, prefix), s, id, leader, peer);
      ConnectingSnoc(ss, id, leader, peer);
    }
  }

  lemma ConnectingSnoc(ss: seq<RaftSession>, id: int, leader: Leader, peer: int)
    requires ss != []
    ensures |Connecting(ss, id, leader, peer)|
            == |Connecting(ss[..|ss| - 1], id, leader, peer)| + (if ConnectsAs(ss[|ss| - 1], id, leader, peer) then 1 else 0)
  {
    var n := |ss| - 1;
    var prefix := ss[..n];
    var small, big := Connecting(prefix, id, leader, peer), Connecting(ss, id, leader, peer);
    var extra: set<nat> := if ConnectsAs(ss[n], id, leader, peer) then {n} else {};
    forall i | i in big
      ensures i in small + extra
    {
      if i < n {
        assert prefix[i] == ss[i];
      }
    }
    forall i | i in small + extra
      ensures i in big
    {
      if i < n {
        assert prefix[i] == ss[i];
      }
    }
    assert big == small + extra;
    assert small !! extra;
  }

  /** What the inner loop over the peers of one session adds to the entry of (id, leader, peer). */
  lemma SessionPeerStep(m: map<PeerKey, nat>, s: RaftSession, id: int, leader: Leader, peer: int)
    ensures Value(ApplyPeers(m, s, s.isConnected.Keys), PeerLabels(id, leader, peer))
            == Value(m, PeerLabels(id, leader, peer))
               + (if ConnectsAs(s, id, leader, peer) then 1 else 0)
  {
    var key := PeerLabels(id, leader, peer);
    ApplyPeersValue(m, s, s.isConnected.Keys, key);
    ItoaRoundTrip(peer);
    PeerLabelsIdentify(s.id, s.leader, peer, id, leader, peer);
  }

  /** After a projection the replication_status entries are the old ones plus those the sessions name. */
  lemma {:induction false} StatusEntries(m: map<StatusKey, nat>, ss: seq<RaftSession>)
    ensures ProjectedStatus(m, ss).Keys == m.Keys + StatusKeysOf(ss)
  {
    if ss != [] {
      var n := |ss| - 1;
      StatusEntries(m, ss[..n]);
      StatusKeysOfSnoc(ss);
    }
  }

  lemma StatusKeysOfSnoc(ss: seq<RaftSession>)
    requires ss != []
    ensures StatusKeysOf(ss) == StatusKeysOf(ss[..|ss| - 1]) + {StatusLabels(ss[|ss| - 1].id, ss[|ss| - 1].leader)}
  {
    var n := |ss| - 1;
    var prefix := ss[..n];
    forall key | key in StatusKeysOf(ss)
      ensures key in StatusKeysOf(prefix) || key == StatusLabels(ss[n].id, ss[n].leader)
    {
      var i :| 0 <= i < |ss| && key == StatusLabels(ss[i].id, ss[i].leader);
      if i < n {
        assert prefix[i] == ss[i];
      }
    }
    forall key | key in StatusKeysOf(prefix)
      ensures key in StatusKeysOf(ss)
    {
      var i :| 0 <= i < |prefix| && key == StatusLabels(prefix[i].id, prefix[i].leader);
      assert ss[i] == prefix[i];
    }
  }

  /**
   After a projection the peer_connection entries are the old ones plus those
   the peers of the sessions name, connected or not.
   */
  lemma {:induction false} PeerEntries(m: map<PeerKey, nat>, ss: seq<RaftSession>)
    ensures ProjectedPeers(m, ss).Keys == m.Keys + PeerKeysOf(ss)
  {
    if ss != [] {
      var n := |ss| - 1;
      PeerEntries(m, ss[..n]);
      PeerKeysOfSnoc(ss);
    }
  }

  lemma PeerKeysOfSnoc(ss: seq<RaftSession>)
    requires ss != []
    ensures PeerKeysOf(ss) == PeerKeysOf(ss[..|ss| - 1]) + PeerKeys(ss[|ss| - 1], ss[|ss| - 1].isConnected.Keys)
  {
    PeerKeysOfSnocWithin(ss);
    PeerKeysOfSnocCovers(ss);
  }

  lemma PeerKeysOfSnocWithin(ss: seq<RaftSession>)
    requires ss != []
    ensures PeerKeysOf(ss) <= PeerKeysOf(ss[..|ss| - 1]) + PeerKeys(ss[|ss| - 1], ss[|ss| - 1].isConnected.Keys)
  {
    var n := |ss| - 1;
    var prefix, last := ss[..n], ss[n];
    forall key | key in PeerKeysOf(ss)
      ensures key in PeerKeysOf(prefix) + PeerKeys(last, last.isConnected.Keys)
    {
      var i, k :| 0 <= i < |ss| && k in ss[i].isConnected && key == PeerLabels(ss[i].id, ss[i].leader, k);
      if i < n {
        assert prefix[i] == ss[i];
      }
    }
  }

  lemma PeerKeysOfSnocCovers(ss: seq<RaftSession>)
    requires ss != []
    ensures PeerKeysOf(ss[..|ss| - 1]) + PeerKeys(ss[|ss| - 1], ss[|ss| - 1].isConnected.Keys) <= PeerKeysOf(ss)
  {
    var prefix := ss[..|ss| - 1];
    forall key | key in PeerKeysOf(prefix)
      ensures key in PeerKeysOf(ss)
    {
      var i, k :| 0 <= i < |prefix| && k in prefix[i].isConnected && key == PeerLabels(prefix[i].id, prefix[i].leader, k);
      assert ss[i] == prefix[i];
    }
  }

  /**
   Nothing else changes in replication_status: no entry is removed, none
   decreases, and one that no session names keeps its value.
   */
  lemma {:induction false} StatusFrame(m: map<StatusKey, nat>, ss: seq<RaftSession>)
    ensures forall key :: key in m ==> key in ProjectedStatus(m, ss) && m[key] <= ProjectedStatus(m, ss)[key]
    ensures forall key :: key !in StatusKeysOf(ss) ==> Value(ProjectedStatus(m, ss), key) == Value(m, key)
  {
    if ss != [] {
      var n := |ss| - 1;
      StatusFrame(m, ss[..n]);
      StatusKeysOfSnoc(ss);
    }
  }

  /**
   Nothing else changes in peer_connection: no entry is removed, none
   decreases, and one that no peer of any session names keeps its value.
   */
  lemma {:induction false} PeerFrame(m: map<PeerKey, nat>, ss: seq<RaftSession>)
    ensures forall key :: key in m ==> key in ProjectedPeers(m, ss) && m[key] <= ProjectedPeers(m, ss)[key]
    ensures forall key :: key !in PeerKeysOf(ss) ==> Value(ProjectedPeers(m, ss), key) == Value(m, key)
  {
    if ss != [] {
      var n := |ss| - 1;
      var prior := ProjectedPeers(m, ss[..n]);
      PeerFrame(m, ss[..n]);
      PeerKeysOfSnoc(ss);
      forall key
        ensures Value(ProjectedPeers(m, ss), key) == Value(prior, key) + (if ConnectedVia(ss[n], ss[n].isConnected.Keys, key) then 1 else 0)
      {
        ApplyPeersValue(prior, ss[n], ss[n].isConnected.Keys, key);
      }
    }
  }

  /**
   A session whose isConnected map is empty adds no peer_connection update,
   and still adds its replication_status update.
   */
  lemma EmptyConnectionsOnlyStatus(sm: map<StatusKey, nat>, pm: map<PeerKey, nat>, ss: seq<RaftSession>, s: RaftSession)
    requires s.isConnected == map[]
    ensures ProjectedPeers(pm, ss + [s]) == ProjectedPeers(pm, ss)
    ensures ProjectedStatus(sm, ss + [s]).Keys == ProjectedStatus(sm, ss).Keys + {StatusLabels(s.id, s.leader)}
    ensures Value(ProjectedStatus(sm, ss + [s]), StatusLabels(s.id, s.leader))
            == Value(ProjectedStatus(sm, ss), StatusLabels(s.id, s.leader)) + BoolToFloat(s.ableToReplicate)
  {
    assert (ss + [s])[..|ss|] == ss;
    assert s.isConnected.Keys == {};
    assert ProjectedPeers(pm, ss + [s]) == ApplyPeers(ProjectedPeers(pm, ss), s, {});
    ApplyNoPeer(ProjectedPeers(pm, ss), s);
  }

  // ----- repeated projections -----

  lemma MultipleStep(n: nat, c: nat)
    requires n > 0
    ensures (n - 1) * c + c == n * c
  {
  }

  /** replication_status after n projections of the same sessions. */
  function ProjectedStatusTimes(m: map<StatusKey, nat>, ss: seq<RaftSession>, n: nat): map<StatusKey, nat>
    decreases n
  {
    if n == 0 then m else ProjectedStatus(ProjectedStatusTimes(m, ss, n - 1), ss)
  }

  /** peer_connection after n projections of the same sessions. */
  ghost function ProjectedPeersTimes(m: map<PeerKey, nat>, ss: seq<RaftSession>, n: nat): map<PeerKey, nat>
    decreases n
  {
    if n == 0 then m else ProjectedPeers(ProjectedPeersTimes(m, ss, n - 1), ss)
  }

  /** n projections add n times what one projection adds to a replication_status entry. */
  lemma {:induction false} StatusTimesGrowth(m: map<StatusKey, nat>, ss: seq<RaftSession>, n: nat, key: StatusKey, c: nat)
    requires forall prior :: Value(ProjectedStatus(prior, ss), key) == Value(prior, key) + c
    ensures Value(ProjectedStatusTimes(m, ss, n), key) == Value(m, key) + n * c
  {
    if n > 0 {
      StatusTimesGrowth(m, ss, n - 1, key, c);
      assert Value(ProjectedStatusTimes(m, ss, n), key) == Value(ProjectedStatusTimes(m, ss, n - 1), key) + c;
      MultipleStep(n, c);
    }
  }

  /** n projections add n times what one projection adds to a peer_connection entry. */
  lemma {:induction false} PeerTimesGrowth(m: map<PeerKey, nat>, ss: seq<RaftSession>, n: nat, key: PeerKey, c: nat)
    requires forall prior :: Value(ProjectedPeers(prior, ss), key) == Value(prior, key) + c
    ensures Value(ProjectedPeersTimes(m, ss, n), key) == Value(m, key) + n * c
  {
    if n > 0 {
      PeerTimesGrowth(m, ss, n - 1, key, c);
      assert Value(ProjectedPeersTimes(m, ss, n), key) == Value(ProjectedPeersTimes(m, ss, n - 1), key) + c;
      MultipleStep(n, c);
    }
  }

  /**
   Updates add rather than assign: n projections of the same sessions raise a
   replication_status entry by n times the number of its sessions that are
   able to replicate.
   */
  lemma StatusAccumulates(m: map<StatusKey, nat>, ss: seq<RaftSession>, n: nat, id: int, leader: Leader)
    ensures Value(ProjectedStatusTimes(m, ss, n), StatusLabels(id, leader))
            == Value(m, StatusLabels(id, leader)) + n * |Replicating(ss, id, leader)|
  {
    var key, c := StatusLabels(id, leader), |Replicating(ss, id, leader)|;
    forall prior
      ensures Value(ProjectedStatus(prior, ss), key) == Value(prior, key) + c
    {
      ReplicationStatusGrowth(prior, ss, id, leader);
    }
    StatusTimesGrowth(m, ss, n, key, c);
  }

  /**
   Updates add rather than assign: n projections of the same sessions raise a
   peer_connection entry by n times the number of its sessions connected to
   the peer.
   */
  lemma PeerAccumulates(m: map<PeerKey, nat>, ss: seq<RaftSession>, n: nat, id: int, leader: Leader, peer: int)
    ensures Value(ProjectedPeersTimes(m, ss, n), PeerLabels(id, leader, peer))
            == Value(m, PeerLabels(id, leader, peer)) + n * |Connecting(ss, id, leader, peer)|
  {
    var key, c := PeerLabels(id, leader, peer), |Connecting(ss, id, leader, peer)|;
    forall prior
      ensures Value(ProjectedPeers(prior, ss), key) == Value(prior, key) + c
    {
      PeerConnectionGrowth(prior, ss, id, leader, peer);
    }
    PeerTimesGrowth(m, ss, n, key, c);
  }

  /**
   A single session that is able to replicate, projected n times, leaves its
   replication_status entry n above where it started: n, not 1, from empty.
   */
  lemma SameSessionNTimes(m: map<StatusKey, nat>, s: RaftSession, n: nat)
    requires s.ableToReplicate
    ensures Value(ProjectedStatusTimes(m, [s], n), StatusLabels(s.id, s.leader))
            == Value(m, StatusLabels(s.id, s.leader)) + n
  {
    StatusAccumulates(m, [s], n, s.id, s.leader);
    assert Replicating([s], s.id, s.leader) == {0};
  }

  // ----- a worked example -----

  /**
   A livecheck answer with one session, id 1, led by 10.0.0.1:9000, connected
   to peer 2 and not to peer 3, able to replicate, projected once into empty
   tables: replication_status{id="1",leader="10.0.0.1",port="9000"} reads 1,
   peer_connection towards 2 reads 1, and towards 3 exists and reads 0.
   */
  lemma LivecheckExample()
    ensures var s := RaftSession(1, Leader("10.0.0.1", 9000), map[2 := true, 3 := false], true);
            var peers := ProjectedPeers(map[], [s]);
            && Value(ProjectedStatus(map[], [s]), StatusKey("1", "10.0.0.1", "9000")) == 1
            && Value(peers, PeerKey("1", "10.0.0.1", "9000", "2", "10.0.0.1:9000/2")) == 1
            && PeerKey("1", "10.0.0.1", "9000", "3", "10.0.0.1:9000/3") in peers
            && peers[PeerKey("1", "10.0.0.1", "9000", "3", "10.0.0.1:9000/3")] == 0
  {
    var s := RaftSession(1, Leader("10.0.0.1", 9000), map[2 := true, 3 := false], true);
    ExampleLabels();
    ExampleStatus(s);
    ExampleConnected(s);
    ExampleDisconnected(s);
  }

  lemma ExampleStatus(s: RaftSession)
    requires s == RaftSession(1, Leader("10.0.0.1", 9000), map[2 := true, 3 := false], true)
    ensures Value(ProjectedStatus(map[], [s]), StatusLabels(1, s.leader)) == 1
  {
    ReplicationStatusGrowth(map[], [s], 1, s.leader);
    assert Replicating([s], 1, s.leader) == {0};
  }

  lemma ExampleConnected(s: RaftSession)
    requires s == RaftSession(1, Leader("10.0.0.1", 9000), map[2 := true, 3 := false], true)
    ensures Value(ProjectedPeers(map[], [s]), PeerLabels(1, s.leader, 2)) == 1
  {
    PeerConnectionGrowth(map[], [s], 1, s.leader, 2);
    assert Connecting([s], 1, s.leader, 2) == {0};
  }

  lemma ExampleDisconnected(s: RaftSession)
    requires s == RaftSession(1, Leader("10.0.0.1", 9000), map[2 := true, 3 := false], true)
    ensures PeerLabels(1, s.leader, 3) in ProjectedPeers(map[], [s])
    ensures ProjectedPeers(map[], [s])[PeerLabels(1, s.leader, 3)] == 0
  {
    PeerConnectionGrowth(map[], [s], 1, s.leader, 3);
    assert Connecting([s], 1, s.leader, 3) == {};
    PeerEntries(map[], [s]);
    assert PeerLabels(1, s.leader, 3) in PeerKeysOf([s]);
  }

  /** The labels of the example session, rendered. */
  lemma ExampleLabels()
    ensures StatusLabels(1, Leader("10.0.0.1", 9000)) == StatusKey("1", "10.0.0.1", "9000")
    ensures PeerLabels(1, Leader("10.0.0.1", 9000), 2) == PeerKey("1", "10.0.0.1", "9000", "2", "10.0.0.1:9000/2")
    ensures PeerLabels(1, Leader("10.0.0.1", 9000), 3) == PeerKey("1", "10.0.0.1", "9000", "3", "10.0.0.1:9000/3")
  {
    assert NatDigits(90) == "90";
    assert NatDigits(900) == "900";
    assert NatDigits(9000) == "9000";
  }
}
