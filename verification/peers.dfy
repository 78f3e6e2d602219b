/**
 * The peer client of node.go: what one HTTP call to another node can
 * answer, and the first-success search over the configured peers that the
 * node runs when a name is missing locally (fetchFileFromPeers).
 */
module Peers {
  import opened Store

  const STATUS_OK := 200

  /**
   * The outcome of one call to a peer: no response at all (connection
   * refused, timeout, unusable address), or a status code with a body that
   * either reads completely or breaks off.
   */
  datatype Reply = Unreachable | Answer(status: int, body: Option<seq<byte>>)

  /**
   * The other nodes as seen from this one, as fixed oracles: the reply to
   * `GET /download/{name}`, the reply to a push `POST /sync` carrying a file,
   * and the decoded reply to `GET /sync` (None when the peer cannot be
   * reached or its answer is not a JSON listing).
   */
  datatype Network = Network(
    download: (string, string) -> Reply,
    push: (string, string, seq<byte>) -> Reply,
    directory: string -> Option<seq<FileInfo>>)

  /** A call counts as successful exactly when the peer answers 200. */
  predicate Succeeded(r: Reply)
  {
    r.Answer? && r.status == STATUS_OK
  }

  /** The position of the first peer that answers 200 for `name`, or |peers|. */
  function FirstServing(peers: seq<string>, name: string, net: Network): (k: nat)
    ensures k <= |peers|
    ensures k < |peers| ==> Succeeded(net.download(peers[k], name))
    ensures forall j :: 0 <= j < k ==> !Succeeded(net.download(peers[j], name))
    decreases |peers|
  {
    if peers == [] then 0
    else if Succeeded(net.download(peers[0], name)) then 0
    else 1 + FirstServing(peers[1..], name, net)
  }

  /**
   * What fetchFileFromPeers yields: the body of the first 200 answer, or
   * nothing when no peer answers 200 or that first body breaks off.
   */
  function Fetch(peers: seq<string>, name: string, net: Network): Option<seq<byte>>
  {
    var k := FirstServing(peers, name, net);
    if k < |peers| then net.download(peers[k], name).body else None
  }

  /** The peers fetchFileFromPeers contacts, in order. */
  function Asked(peers: seq<string>, name: string, net: Network): seq<string>
  {
    var k := FirstServing(peers, name, net);
    if k < |peers| then peers[..k + 1] else peers
  }

  /**
   * The fetch yields `c` exactly when some peer answers 200 with body `c`
   * and every peer before it failed to answer 200.
   */
  lemma FetchIsFirstSuccess(peers: seq<string>, name: string, net: Network, c: seq<byte>)
    ensures Fetch(peers, name, net) == Some(c) <==>
              exists k :: 0 <= k < |peers| && net.download(peers[k], name) == Answer(STATUS_OK, Some(c))
                          && forall j :: 0 <= j < k ==> !Succeeded(net.download(peers[j], name))
  {
    var f := FirstServing(peers, name, net);
    if Fetch(peers, name, net) == Some(c) {
      assert f < |peers| && net.download(peers[f], name) == Answer(STATUS_OK, Some(c));
    }
    forall k | 0 <= k < |peers| && net.download(peers[k], name) == Answer(STATUS_OK, Some(c))
                 && forall j :: 0 <= j < k ==> !Succeeded(net.download(peers[j], name))
      ensures Fetch(peers, name, net) == Some(c)
    {
      assert Succeeded(net.download(peers[k], name));
      assert f == k;
    }
  }

  /** When no peer answers 200, the fetch fails after asking every peer. */
  lemma NoServingPeerMeansNotFound(peers: seq<string>, name: string, net: Network)
    requires forall j :: 0 <= j < |peers| ==> !Succeeded(net.download(peers[j], name))
    ensures Fetch(peers, name, net) == None
    ensures Asked(peers, name, net) == peers
  {
  }

  /**
   * Peers after the first one answering 200 are never asked: appending
   * peers to the list changes neither the result nor the peers contacted.
   */
  lemma {:induction false} LaterPeersNeverAsked(peers: seq<string>, more: seq<string>, name: string, net: Network)
    requires FirstServing(peers, name, net) < |peers|
    ensures Fetch(peers + more, name, net) == Fetch(peers, name, net)
    ensures Asked(peers + more, name, net) == Asked(peers, name, net)
  {
    FirstServingOfExtension(peers, more, name, net);
    var k := FirstServing(peers, name, net);
    assert (peers + more)[..k + 1] == peers[..k + 1];
  }

  lemma {:induction false} FirstServingOfExtension(peers: seq<string>, more: seq<string>, name: string, net: Network)
    requires FirstServing(peers, name, net) < |peers|
    ensures FirstServing(peers + more, name, net) == FirstServing(peers, name, net)
    decreases |peers|
  {
    if !Succeeded(net.download(peers[0], name)) {
      assert (peers + more)[1..] == peers[1..] + more;
      FirstServingOfExtension(peers[1..], more, name, net);
    }
  }

  /** A peer that does not answer 200 is skipped: the search goes on with the next one. */
  lemma FailingPeerIsSkipped(p: string, rest: seq<string>, name: string, net: Network)
    requires !Succeeded(net.download(p, name))
    ensures Fetch([p] + rest, name, net) == Fetch(rest, name, net)
    ensures Asked([p] + rest, name, net) == [p] + Asked(rest, name, net)
  {
    assert ([p] + rest)[1..] == rest;
    var k := FirstServing(rest, name, net);
    if k < |rest| {
      assert ([p] + rest)[..k + 2] == [p] + rest[..k + 1];
    }
  }
}
