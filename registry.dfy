/**
 The metric registry and the projection loop of the exporter's main function:
 two gauge vectors, keyed by their label tuples, updated in place with Add.
 */
module Exporter {
  import opened Sessions
  import opened Labels
  import opened Projection

  /** A peer set that is not empty has a member to visit next. */
  lemma SomePeerPending(pending: set<int>)
    requires pending != {}
    ensures exists k :: k in pending
  {
    if forall k :: k !in pending {
      assert false;
    }
  }

  class Registry {
    /** scality_metadata_replication_replication_status, by (id, leader, port). */
    var replicationStatus: map<StatusKey, nat>
    /** scality_metadata_replication_peer_connection, by (id, leader, port, connection_to, connection_path). */
    var peerConnection: map<PeerKey, nat>

    /** Both gauge vectors are registered with no instance yet. */
    constructor ()
      ensures replicationStatus == map[] && peerConnection == map[]
    {
      replicationStatus := map[];
      peerConnection := map[];
    }

    /** rs.WithLabelValues(key...).Add(v) */
    method AddReplicationStatus(key: StatusKey, v: nat)
      modifies this
      ensures replicationStatus == Added(old(replicationStatus), key, v)
      ensures peerConnection == old(peerConnection)
    {
      var current := if key in replicationStatus then replicationStatus[key] else 0;
      replicationStatus := replicationStatus[key := current + v];
    }

    /** rc.WithLabelValues(key...).Add(v) */
    method AddPeerConnection(key: PeerKey, v: nat)
      modifies this
      ensures peerConnection == Added(old(peerConnection), key, v)
      ensures replicationStatus == old(replicationStatus)
    {
      var current := if key in peerConnection then peerConnection[key] else 0;
      peerConnection := peerConnection[key := current + v];
    }

    /**
     The inner loop of the projection: add boolToFloat of each peer's status to
     the peer's peer_connection instance, visiting the peers of s in an
     arbitrary order, as Go's map iteration does.
     */
    method ProjectPeers(s: RaftSession)
      modifies this
      ensures peerConnection == ApplyPeers(old(peerConnection), s, s.isConnected.Keys)
      ensures replicationStatus == old(replicationStatus)
    {
      var pending := s.isConnected.Keys;
      ghost var visited: set<int> := {};
      ApplyNoPeer(peerConnection, s);
      while pending != {}
        invariant pending + visited == s.isConnected.Keys && pending !! visited
        invariant peerConnection == ApplyPeers(old(peerConnection), s, visited)
        invariant replicationStatus == old(replicationStatus)
        decreases pending
      {
        SomePeerPending(pending);
        var k :| k in pending;
        ApplyNextPeer(old(peerConnection), s, visited, k);
        AddPeerConnection(PeerLabels(s.id, s.leader, k), BoolToFloat(s.isConnected[k]));
        pending := pending - {k};
        visited := visited + {k};
      }
    }

    /**
     The projection: for every session in order, the inner loop over its
     peers, then boolToFloat(AbleToReplicate) added to the session's
     replication_status instance.
     */
    method Project(sessions: seq<RaftSession>)
      modifies this
      ensures replicationStatus == ProjectedStatus(old(replicationStatus), sessions)
      ensures peerConnection == ProjectedPeers(old(peerConnection), sessions)
    {
      var i := 0;
      while i < |sessions|
        invariant 0 <= i <= |sessions|
        invariant replicationStatus == ProjectedStatus(old(replicationStatus), sessions[..i])
        invariant peerConnection == ProjectedPeers(old(peerConnection), sessions[..i])
      {
        var s := sessions[i];
        ProjectPeers(s);
        AddReplicationStatus(StatusLabels(s.id, s.leader), BoolToFloat(s.ableToReplicate));
        assert sessions[..i + 1][..i] == sessions[..i];
        i := i + 1;
      }
      assert sessions[..i] == sessions;
    }
  }

  /**
   The body of main once the livecheck answer is decoded: register both gauge
   vectors and project the sessions into them once. Nothing runs again; the
   process then only serves the registry.
   */
  method Run(sessions: seq<RaftSession>) returns (registry: Registry)
    ensures fresh(registry)
    ensures registry.replicationStatus == ProjectedStatus(map[], sessions)
    ensures registry.peerConnection == ProjectedPeers(map[], sessions)
  {
    registry := new Registry();
    registry.Project(sessions);
  }
}
