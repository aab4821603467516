/** The abstract transport: its connection status, its known peers, its inbound
    listeners, and the calls it makes on its collaborators.

    The peer store's contents are the transport's `peers` sequence, keyed by
    `publicKey`. The peer store, the communication client and the subclass
    `listen` hook are observed through `calls`, an append-only log of every
    change request made on them, in order. */
module Transports {
  import opened Wrappers
  import Seqs

  datatype TransportStatus = NotConnected | Connected

  datatype TransportType = PostMessage | P2P

  datatype PeerInfo = PeerInfo(publicKey: string, name: string, relayServer: string)

  /** Where and how an inbound message arrived. */
  datatype ConnectionContext = ConnectionContext(origin: string, id: string)

  /** An inbound message of unknown shape: text, or any other value. */
  datatype Inbound = Text(text: string) | NonText(tag: nat)

  /** Listeners are compared by identity, which an id stands for. */
  type ListenerId = nat

  /** A call the transport makes on a collaborator: the peer store
      (`Store...`), the `listen` hook, or the communication client. */
  datatype Call =
    | StoreAddPeer(peer: PeerInfo)
    | StoreRemovePeer(publicKey: string)
    | StoreRemoveAllPeers
    | Listen(publicKey: string)
    | SendMessage(peer: PeerInfo, message: string)
    | UnsubscribeFromEncryptedMessage(publicKey: string)
    | UnsubscribeFromEncryptedMessages

  datatype Transport = Transport(
    kind: TransportType,
    name: string,
    status: TransportStatus,
    peers: seq<PeerInfo>,
    listeners: seq<ListenerId>,
    hasClient: bool,
    calls: seq<Call>)

  /** The failure `send` reports for a recipient no known peer has. */
  const PeerUnknown: string := "Peer unknown"

  /** The failure of calling `sendMessage` on a transport built without a
      communication client (JavaScript's `TypeError` on `undefined`). */
  const ClientMissing: string := "TypeError: this.client is undefined"

  /** A transport as constructed: bound to a peer store holding `stored` and,
      when `hasClient`, to a communication client; nothing has happened yet. */
  function New(name: string, hasClient: bool, stored: seq<PeerInfo>): (t: Transport)
    ensures t.kind == PostMessage && t.status == NotConnected
    ensures t.name == name && t.hasClient == hasClient && t.peers == stored
    ensures t.listeners == [] && t.calls == []
  {
    Transport(PostMessage, name, NotConnected, stored, [], hasClient, [])
  }

  /** The `connectionStatus` getter. */
  function ConnectionStatus(t: Transport): (r: TransportStatus)
    ensures r == Connected <==> t.status == Connected
  {
    t.status
  }

  /** The base `connect`: marks the transport connected. */
  function Connect(t: Transport): (r: Transport)
    ensures ConnectionStatus(r) == Connected
    ensures r.(status := t.status) == t
  {
    t.(status := Connected)
  }

  /** The base `reconnect` does nothing. */
  function Reconnect(t: Transport): (r: Transport)
    ensures r == t
  {
    t
  }

  /** A fresh transport is a not-connected post-message transport; `connect`
      connects it, a repeated `connect` changes nothing more, and `reconnect`
      leaves the status as it was. */
  lemma ConnectionLifecycle(name: string, hasClient: bool, stored: seq<PeerInfo>, t: Transport)
    ensures ConnectionStatus(New(name, hasClient, stored)) == NotConnected
    ensures New(name, hasClient, stored).kind == PostMessage
    ensures ConnectionStatus(Connect(New(name, hasClient, stored))) == Connected
    ensures Connect(Connect(t)) == Connect(t)
    ensures ConnectionStatus(Reconnect(t)) == ConnectionStatus(t)
  {
  }

  // ---------------------------------------------------------------- peers

  /** The public keys of the peers in the store. */
  function KeysOf(peers: seq<PeerInfo>): set<string>
  {
    set p | p in peers :: p.publicKey
  }

  /** The store's `hasPeer`. */
  predicate HasPeer(peers: seq<PeerInfo>, key: string)
    ensures HasPeer(peers, key) <==> exists i :: 0 <= i < |peers| && peers[i].publicKey == key
  {
    key in KeysOf(peers)
  }

  /** No two stored peers share a public key. */
  ghost predicate UniqueKeys(peers: seq<PeerInfo>)
  {
    Seqs.Pairwise(peers, DistinctKeys)
  }

  predicate DistinctKeys(p: PeerInfo, q: PeerInfo)
  {
    p.publicKey != q.publicKey
  }

  /** The selector that keeps the peers whose key is not `key`. */
  function KeyIsNot(key: string): PeerInfo -> bool
  {
    (q: PeerInfo) => q.publicKey != key
  }

  /** `getPeers` hands out the store's peers. */
  function GetPeers(t: Transport): (r: seq<PeerInfo>)
    ensures forall key :: HasPeer(r, key) <==> HasPeer(t.peers, key)
    ensures r == t.peers
  {
    t.peers
  }

  /** `addPeer`: an unknown key is stored and then listened on; a known key
      leaves everything as it was. */
  function AddPeer(t: Transport, peer: PeerInfo): (r: Transport)
    ensures HasPeer(t.peers, peer.publicKey) ==> r == t
    ensures !HasPeer(t.peers, peer.publicKey) ==>
              && r.peers == t.peers + [peer]
              && r.calls == t.calls + [StoreAddPeer(peer), Listen(peer.publicKey)]
    ensures KeysOf(r.peers) == KeysOf(t.peers) + {peer.publicKey}
    ensures r.(peers := t.peers, calls := t.calls) == t
  {
    if HasPeer(t.peers, peer.publicKey) then t
    else t.(peers := t.peers + [peer], calls := t.calls + [StoreAddPeer(peer), Listen(peer.publicKey)])
  }

  /** The store's `removePeer`: drops every entry with the key. */
  function RemoveKey(peers: seq<PeerInfo>, key: string): (r: seq<PeerInfo>)
    ensures forall q :: q in r <==> q in peers && q.publicKey != key
    ensures KeysOf(r) == KeysOf(peers) - {key}
  {
    var r := Seqs.Filter(peers, KeyIsNot(key));
    assert forall q :: q in peers && q.publicKey != key ==> q in r by {
      forall q | q in peers && q.publicKey != key ensures q in r {
        var i :| 0 <= i < |peers| && peers[i] == q;
      }
    }
    r
  }

  /** `removePeer`: removes the peer's key from the store, then unsubscribes
      from that key when a communication client is present. */
  function RemovePeer(t: Transport, peer: PeerInfo): (r: Transport)
    ensures !HasPeer(r.peers, peer.publicKey)
    ensures forall q :: q in r.peers <==> q in t.peers && q.publicKey != peer.publicKey
    ensures r.calls == t.calls + [StoreRemovePeer(peer.publicKey)]
                       + (if t.hasClient then [UnsubscribeFromEncryptedMessage(peer.publicKey)] else [])
    ensures r.(peers := t.peers, calls := t.calls) == t
  {
    var unsubscribe := if t.hasClient then [UnsubscribeFromEncryptedMessage(peer.publicKey)] else [];
    t.(peers := RemoveKey(t.peers, peer.publicKey),
       calls := t.calls + [StoreRemovePeer(peer.publicKey)] + unsubscribe)
  }

  /** `removeAllPeers`: empties the store, then unsubscribes from everything
      when a communication client is present. */
  function RemoveAllPeers(t: Transport): (r: Transport)
    ensures r.peers == [] && KeysOf(r.peers) == {}
    ensures r.calls == t.calls + [StoreRemoveAllPeers]
                       + (if t.hasClient then [UnsubscribeFromEncryptedMessages] else [])
    ensures r.(peers := t.peers, calls := t.calls) == t
  {
    var unsubscribe := if t.hasClient then [UnsubscribeFromEncryptedMessages] else [];
    t.(peers := [], calls := t.calls + [StoreRemoveAllPeers] + unsubscribe)
  }

  /** Removing a key from a store with unique keys keeps the keys unique. */
  lemma RemoveKeyKeepsUnique(peers: seq<PeerInfo>, key: string)
    requires UniqueKeys(peers)
    ensures UniqueKeys(RemoveKey(peers, key))
  {
    Seqs.FilterPairwise(peers, KeyIsNot(key), DistinctKeys);
  }

  /** Adding a peer keeps the keys unique. */
  lemma AddPeerKeepsUnique(t: Transport, peer: PeerInfo)
    requires UniqueKeys(t.peers)
    ensures UniqueKeys(AddPeer(t, peer).peers)
  {
    if !HasPeer(t.peers, peer.publicKey) {
      var ps := t.peers + [peer];
      forall i, j | 0 <= i < j < |ps| ensures DistinctKeys(ps[i], ps[j]) {
        if j == |ps| - 1 {
          assert ps[i] in t.peers;
          assert ps[i].publicKey in KeysOf(t.peers);
        } else {
          assert ps[i] == t.peers[i] && ps[j] == t.peers[j];
        }
      }
    }
  }

  /** A step of peer bookkeeping. */
  datatype PeerOp = AddOp(peer: PeerInfo) | RemoveOp(peer: PeerInfo)

  /** Runs `addPeer`/`removePeer` calls in order. */
  function Replay(t: Transport, ops: seq<PeerOp>): Transport
    decreases |ops|
  {
    if |ops| == 0 then t
    else
      var next := match ops[0]
        case AddOp(p) => AddPeer(t, p)
        case RemoveOp(p) => RemovePeer(t, p);
      Replay(next, ops[1..])
  }

  /** The keys a run of calls should leave: added keys in, removed keys out. */
  function ExpectedKeys(keys: set<string>, ops: seq<PeerOp>): set<string>
    decreases |ops|
  {
    if |ops| == 0 then keys
    else match ops[0]
      case AddOp(p) => ExpectedKeys(keys + {p.publicKey}, ops[1..])
      case RemoveOp(p) => ExpectedKeys(keys - {p.publicKey}, ops[1..])
  }

  /** After any run of `addPeer`/`removePeer`, the known keys are the initial
      keys with each add and remove applied in order, whatever the store held. */
  lemma {:induction false} ReplayKeys(t: Transport, ops: seq<PeerOp>)
    ensures KeysOf(Replay(t, ops).peers) == ExpectedKeys(KeysOf(t.peers), ops)
    decreases |ops|
  {
    if |ops| != 0 {
      match ops[0]
      case AddOp(p) => ReplayKeys(AddPeer(t, p), ops[1..]);
      case RemoveOp(p) => ReplayKeys(RemovePeer(t, p), ops[1..]);
    }
  }

  /** A store whose keys are unique keeps them unique under any run of
      `addPeer`/`removePeer`: duplicate adds collapse to one entry. */
  lemma {:induction false} ReplayKeepsUnique(t: Transport, ops: seq<PeerOp>)
    requires UniqueKeys(t.peers)
    ensures UniqueKeys(Replay(t, ops).peers)
    decreases |ops|
  {
    if |ops| != 0 {
      match ops[0]
      case AddOp(p) =>
        AddPeerKeepsUnique(t, p);
        ReplayKeepsUnique(AddPeer(t, p), ops[1..]);
      case RemoveOp(p) =>
        RemoveKeyKeepsUnique(t.peers, p.publicKey);
        ReplayKeepsUnique(RemovePeer(t, p), ops[1..]);
    }
  }

  // ---------------------------------------------------------------- send

  /** A recipient is truthy when given and not the empty string. */
  predicate IsTruthy(recipient: Option<string>)
  {
    recipient.Some? && recipient.value != ""
  }

  /** The first stored peer with the key, as `find` returns it. */
  function FindPeer(peers: seq<PeerInfo>, key: string): (r: Option<nat>)
    ensures r.None? <==> !HasPeer(peers, key)
    ensures r.Some? ==> r.value < |peers| && peers[r.value].publicKey == key
    ensures r.Some? ==> forall j :: 0 <= j < r.value ==> peers[j].publicKey != key
  {
    if |peers| == 0 then None
    else if peers[0].publicKey == key then Some(0)
    else
      assert KeysOf(peers) == {peers[0].publicKey} + KeysOf(peers[1..]) by {
        assert peers == [peers[0]] + peers[1..];
      }
      match FindPeer(peers[1..], key)
      case None => None
      case Some(i) => Some(i + 1)
  }

  /** The broadcast's deliveries: one per peer, in peer order. */
  function Broadcast(peers: seq<PeerInfo>, message: string): (r: seq<Call>)
    ensures |r| == |peers|
    ensures forall i :: 0 <= i < |peers| ==> r[i] == SendMessage(peers[i], message)
  {
    if |peers| == 0 then []
    else [SendMessage(peers[0], message)] + Broadcast(peers[1..], message)
  }

  /** A successful send: the transport after it, and what the caller gets back. */
  datatype Sent<A> = Sent(transport: Transport, result: Option<A>)

  /** `send`: a truthy recipient is looked up by public key and sent to alone,
      or refused when unknown; otherwise the message goes to every known peer
      and the caller gets the first delivery's result. A delivery on a
      transport without a communication client fails before anything is sent.
      `reply` stands for what the communication client's `sendMessage` returns. */
  function Send<A>(t: Transport, message: string, recipient: Option<string>,
                   reply: (PeerInfo, string) -> A): (r: Result<Sent<A>, string>)
    ensures IsTruthy(recipient) && !HasPeer(t.peers, recipient.value) ==>
              r == Failure(PeerUnknown)
    ensures IsTruthy(recipient) && HasPeer(t.peers, recipient.value) && !t.hasClient ==>
              r == Failure(ClientMissing)
    ensures IsTruthy(recipient) && HasPeer(t.peers, recipient.value) && t.hasClient ==>
              exists i :: 0 <= i < |t.peers| && t.peers[i].publicKey == recipient.value
                && (forall j :: 0 <= j < i ==> t.peers[j].publicKey != recipient.value)
                && r == Success(Sent(t.(calls := t.calls + [SendMessage(t.peers[i], message)]),
                                     Some(reply(t.peers[i], message))))
    ensures !IsTruthy(recipient) && |t.peers| > 0 && !t.hasClient ==> r == Failure(ClientMissing)
    ensures !IsTruthy(recipient) && (|t.peers| == 0 || t.hasClient) ==> r.Success?
    ensures !IsTruthy(recipient) && r.Success? ==>
              var calls := r.value.transport.calls;
              && r.value.transport.(calls := t.calls) == t
              && |calls| == |t.calls| + |t.peers|
              && calls[..|t.calls|] == t.calls
              && (forall i :: 0 <= i < |t.peers| ==> calls[|t.calls| + i] == SendMessage(t.peers[i], message))
              && r.value.result == (if |t.peers| == 0 then None else Some(reply(t.peers[0], message)))
  {
    if IsTruthy(recipient) then
      match FindPeer(t.peers, recipient.value)
      case None => Failure(PeerUnknown)
      case Some(i) =>
        if !t.hasClient then Failure(ClientMissing)
        else
          var peer := t.peers[i];
          Success(Sent(t.(calls := t.calls + [SendMessage(peer, message)]), Some(reply(peer, message))))
    else if |t.peers| > 0 && !t.hasClient then Failure(ClientMissing)
    else
      var first := if |t.peers| == 0 then None else Some(reply(t.peers[0], message));
      Success(Sent(t.(calls := t.calls + Broadcast(t.peers, message)), first))
  }

  // ---------------------------------------------------------------- listeners

  /** `addListener`: registers at the end, without deduplication. */
  function AddListener(t: Transport, listener: ListenerId): (r: Transport)
    ensures r.listeners == t.listeners + [listener]
    ensures r.(listeners := t.listeners) == t
  {
    t.(listeners := t.listeners + [listener])
  }

  /** The selector that keeps every listener but `listener`. */
  function IsNot(listener: ListenerId): ListenerId -> bool
  {
    (x: ListenerId) => x != listener
  }

  /** `removeListener`: drops every registration of the listener and keeps the
      others in their order. */
  function RemoveListener(t: Transport, listener: ListenerId): (r: Transport)
    ensures listener !in r.listeners
    ensures forall x :: x in t.listeners && x != listener ==> x in r.listeners
    ensures forall x :: x in r.listeners ==> x in t.listeners
    ensures |r.listeners| == |t.listeners| - multiset(t.listeners)[listener]
    ensures multiset(r.listeners) == multiset(t.listeners)[listener := 0]
    ensures r.(listeners := t.listeners) == t
  {
    Seqs.FilterOutCount(t.listeners, IsNot(listener), listener);
    Seqs.FilterOutMultiset(t.listeners, IsNot(listener), listener);
    var kept := Seqs.Filter(t.listeners, IsNot(listener));
    assert forall x :: x in t.listeners && x != listener ==> x in kept by {
      forall x | x in t.listeners && x != listener ensures x in kept {
        var i :| 0 <= i < |t.listeners| && t.listeners[i] == x;
      }
    }
    t.(listeners := kept)
  }

  /** Removing a listener right after registering it gives what removing it
      alone gives; when it was not registered, that restores the transport. */
  lemma AddThenRemoveListener(t: Transport, listener: ListenerId)
    ensures RemoveListener(AddListener(t, listener), listener) == RemoveListener(t, listener)
    ensures listener !in t.listeners ==> RemoveListener(AddListener(t, listener), listener) == t
  {
    var keep := IsNot(listener);
    Seqs.FilterConcat(t.listeners, [listener], keep);
    assert Seqs.Filter([listener], keep) == [];
    if listener !in t.listeners {
      Seqs.FilterKeepsAll(t.listeners, keep);
    }
  }

  /** Removing one listener commutes with registering another: the others keep
      their registration order. */
  lemma RemoveCommutesWithAdd(t: Transport, listener: ListenerId, other: ListenerId)
    requires other != listener
    ensures RemoveListener(AddListener(t, other), listener)
            == AddListener(RemoveListener(t, listener), other)
  {
    var keep := IsNot(listener);
    Seqs.FilterConcat(t.listeners, [other], keep);
    assert Seqs.Filter([other], keep) == [other];
  }

  /** One listener call made while notifying. */
  datatype Invocation = Invocation(listener: ListenerId, message: Inbound, context: ConnectionContext)

  /** `notifyListeners`: calls every registered listener once per registration,
      in registration order, with the same message and context; with no
      listener it only raises a warning. */
  method NotifyListeners(t: Transport, message: Inbound, context: ConnectionContext)
    returns (invoked: seq<Invocation>, warned: bool)
    ensures |invoked| == |t.listeners|
    ensures forall i :: 0 <= i < |invoked| ==> invoked[i] == Invocation(t.listeners[i], message, context)
    ensures warned <==> |t.listeners| == 0
  {
    warned := |t.listeners| == 0;
    invoked := [];
    var i := 0;
    while i < |t.listeners|
      invariant 0 <= i <= |t.listeners|
      invariant |invoked| == i
      invariant forall k :: 0 <= k < i ==> invoked[k] == Invocation(t.listeners[k], message, context)
    {
      invoked := invoked + [Invocation(t.listeners[i], message, context)];
      i := i + 1;
    }
  }
}
