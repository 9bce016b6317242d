/**
 The decoded answer of the livecheck endpoint: one record per Raft session.
 */
module Sessions {

  /** Address of a session's leader. */
  datatype Leader = Leader(host: string, port: int)

  /**
   One Raft session. `isConnected` maps a peer id to whether the session is
   connected to that peer; its key set varies from session to session.
   */
  datatype RaftSession = RaftSession(
    id: int,
    leader: Leader,
    isConnected: map<int, bool>,
    ableToReplicate: bool)

  /**
   raftStatus.boolToFloat: the gauge increment for a status. Every increment is
   0 or 1, so the model counts in naturals instead of float64.
   */
  function BoolToFloat(b: bool): (r: nat)
    ensures r <= 1
    ensures r == 1 <==> b
  {
    if b then 1 else 0
  }
}
