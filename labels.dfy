/**
 The label tuples of the two gauge families and how they are derived from a
 session: integers rendered with strconv.Itoa, and the `connection_path` label
 written as host:port/peer.
 */
module Labels {
  import opened Decimal
  import opened Sessions

  /** Labels of scality_metadata_replication_replication_status: (id, leader, port). */
  datatype StatusKey = StatusKey(id: string, leader: string, port: string)

  /**
   Labels of scality_metadata_replication_peer_connection:
   (id, leader, port, connection_to, connection_path).
   */
  datatype PeerKey = PeerKey(
    id: string,
    leader: string,
    port: string,
    connectionTo: string,
    connectionPath: string)

  /** The connection_path label: host:port/peer. */
  function ConnectionPath(host: string, port: int, peer: int): string {
    host + ":" + Itoa(port) + "/" + Itoa(peer)
  }

  /** The replication_status labels of a session with this id and leader. */
  function StatusLabels(id: int, leader: Leader): StatusKey {
    StatusKey(Itoa(id), leader.host, Itoa(leader.port))
  }

  /** The peer_connection labels of a session with this id and leader, towards peer. */
  function PeerLabels(id: int, leader: Leader, peer: int): PeerKey {
    PeerKey(
      Itoa(id),
      leader.host,
      Itoa(leader.port),
      Itoa(peer),
      ConnectionPath(leader.host, leader.port, peer))
  }

  /** Position of the last occurrence of c in s, if any. */
  function LastIndexOf(s: string, c: char): (r: Option<nat>)
    ensures r.Some? ==> r.value < |s| && s[r.value] == c
    ensures r.Some? ==> forall j :: r.value < j < |s| ==> s[j] != c
    ensures r.None? ==> forall j :: 0 <= j < |s| ==> s[j] != c
  {
    if s == [] then None
    else if s[|s| - 1] == c then Some(|s| - 1)
    else LastIndexOf(s[..|s| - 1], c)
  }

  /**
   Reads a connection path back into (host, port, peer). The peer follows the
   last '/', the port the last ':' before it; the host is all that precedes.
   */
  function ParseConnectionPath(path: string): Option<(string, int, int)> {
    match LastIndexOf(path, '/')
    case None => None
    case Some(j) =>
      var head := path[..j];
      match LastIndexOf(head, ':')
      case None => None
      case Some(i) =>
        match (ParseInt(head[i + 1..]), ParseInt(path[j + 1..]))
        case (Some(port), Some(peer)) => Some((head[..i], port, peer))
        case _ => None
  }

  lemma {:induction false} LastIndexOfSeparator(a: string, c: char, b: string)
    requires forall j :: 0 <= j < |b| ==> b[j] != c
    ensures LastIndexOf(a + [c] + b, c) == Some(|a|)
  {
    var s := a + [c] + b;
    if b == [] {
      assert s == a + [c];
    } else {
      assert s[..|s| - 1] == a + [c] + b[..|b| - 1];
      assert s[|s| - 1] == b[|b| - 1];
      LastIndexOfSeparator(a, c, b[..|b| - 1]);
    }
  }

  lemma ItoaHasNoSeparator(n: int, c: char)
    requires c == ':' || c == '/'
    ensures forall j :: 0 <= j < |Itoa(n)| ==> Itoa(n)[j] != c
  {
  }

  /**
   The connection path encodes its host, port and peer: reading it back gives
   them, whatever characters the host holds, because a rendered integer holds
   neither ':' nor '/'.
   */
  lemma ConnectionPathRoundTrip(host: string, port: int, peer: int)
    ensures ParseConnectionPath(ConnectionPath(host, port, peer)) == Some((host, port, peer))
  {
    var p, k := Itoa(port), Itoa(peer);
    var head := host + ":" + p;
    var path := ConnectionPath(host, port, peer);
    assert path == head + "/" + k;
    ItoaHasNoSeparator(peer, '/');
    LastIndexOfSeparator(head, '/', k);
    ItoaHasNoSeparator(port, ':');
    LastIndexOfSeparator(host, ':', p);
    assert path[..|head|] == head;
    assert path[|head| + 1..] == k;
    assert head[|host| + 1..] == p;
    assert head[..|host|] == host;
    ItoaRoundTrip(port);
    ItoaRoundTrip(peer);
  }

  /** Distinct (host, port, peer) triples never share a connection path. */
  lemma ConnectionPathInjective(h1: string, p1: int, k1: int, h2: string, p2: int, k2: int)
    ensures ConnectionPath(h1, p1, k1) == ConnectionPath(h2, p2, k2) <==> h1 == h2 && p1 == p2 && k1 == k2
  {
    ConnectionPathRoundTrip(h1, p1, k1);
    ConnectionPathRoundTrip(h2, p2, k2);
  }

  /** A replication_status label tuple names exactly one (id, leader) pair. */
  lemma StatusLabelsIdentify(id1: int, leader1: Leader, id2: int, leader2: Leader)
    ensures StatusLabels(id1, leader1) == StatusLabels(id2, leader2)
            <==> id1 == id2 && leader1 == leader2
  {
    ItoaInjective(id1, id2);
    ItoaInjective(leader1.port, leader2.port);
  }

  /** A peer_connection label tuple names exactly one (id, leader, peer) triple. */
  lemma PeerLabelsIdentify(id1: int, leader1: Leader, peer1: int, id2: int, leader2: Leader, peer2: int)
    ensures PeerLabels(id1, leader1, peer1) == PeerLabels(id2, leader2, peer2)
            <==> id1 == id2 && leader1 == leader2 && peer1 == peer2
  {
    ItoaInjective(id1, id2);
    ItoaInjective(leader1.port, leader2.port);
    ItoaInjective(peer1, peer2);
  }
}
