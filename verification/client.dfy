/** The client shared by both roles: it owns the transport slot, keeps the
    rate-limit log, and passes textual inbound messages to its handler. */
module Clients {
  import opened Wrappers
  import Seqs
  import opened ExposedPromise
  import T = Transports

  /** How many requests may follow one another inside the window. */
  const RateLimit: nat := 2

  /** The length of the rate-limit window, in seconds. */
  const RateLimitWindowInSeconds: nat := 5

  /** A request made at `date` (milliseconds) still counts at `now`. */
  predicate Recent(date: int, now: int)
  {
    date + RateLimitWindowInSeconds * 1000 > now
  }

  /** The selector that keeps the timestamps still inside the window at `now`. */
  function InWindow(now: int): int -> bool
  {
    (date: int) => Recent(date, now)
  }

  /** What the event bus is told. */
  datatype Event = ActiveTransportSet(transport: Option<T.Transport>)

  /** A call of the dispatch hook `handleResponse`, with the text it decodes
      and the context the message came with. */
  datatype Dispatch = HandleResponse(serialized: string, context: T.ConnectionContext)

  datatype Client = Client(
    slot: Slot<T.Transport>,
    requestCounter: seq<int>,
    events: seq<Event>,
    listener: T.ListenerId)

  /** A new client: an unsettled slot, no requests, no events. `listener`
      stands for the inbound listener closure the client registers on
      transports; the program builds a fresh anonymous closure on every
      registration, which nothing can name to remove again, and one id for all
      of them is what the model keeps of that. */
  function New(listener: T.ListenerId): (c: Client)
    ensures !IsSettled(c.slot) && c.requestCounter == [] && c.events == []
    ensures c.listener == listener
  {
    Client(Fresh(0), [], [], listener)
  }

  /** The `connectionStatus` getter. */
  function ConnectionStatus(c: Client): (r: T.TransportStatus)
    ensures !IsSettled(c.slot) ==> r == T.NotConnected
    ensures IsSettled(c.slot) ==> r == c.slot.cell.value.status
  {
    match PromiseResult(c.slot)
    case Some(t) => T.ConnectionStatus(t)
    case None => T.NotConnected
  }

  // ---------------------------------------------------------------- rate limit

  /** The earlier requests a check at `now` keeps, in their order. */
  function Retained(log: seq<int>, now: int): seq<int>
  {
    Seqs.Filter(log, InWindow(now))
  }

  datatype RateCheck = RateCheck(client: Client, limited: bool)

  /** `addRequestAndCheckIfRateLimited` at time `now`: forgets requests at least
      a window old, records `now` as the newest request, and reports whether
      more than `RateLimit` requests remain. */
  function AddRequestAndCheckIfRateLimited(c: Client, now: int): (r: RateCheck)
    ensures var log := r.client.requestCounter;
            && |log| >= 1 && log[|log| - 1] == now
            && (forall i :: 0 <= i < |log| ==> Recent(log[i], now))
            && (forall i :: 0 <= i < |log| - 1 ==> log[i] in c.requestCounter)
    ensures forall i :: 0 <= i < |c.requestCounter| && Recent(c.requestCounter[i], now) ==>
              c.requestCounter[i] in r.client.requestCounter
    ensures r.limited <==> |r.client.requestCounter| > RateLimit
    ensures r.limited <==> exists i, j :: Seqs.KeptPair(c.requestCounter, InWindow(now), i, j)
    ensures r.client.(requestCounter := c.requestCounter) == c
  {
    var kept := Retained(c.requestCounter, now);
    Seqs.FilterHasTwo(c.requestCounter, InWindow(now));
    var log := kept + [now];
    assert forall i :: 0 <= i < |log| - 1 ==> log[i] == kept[i];
    RateCheck(c.(requestCounter := log), |log| > RateLimit)
  }

  /** The check keeps the surviving requests in their original order: the
      requests kept from a log `a + b` are those kept from `a` followed by those
      kept from `b`, and the new request is appended last. */
  lemma {:induction false} RateLimitKeepsOrder(c: Client, a: seq<int>, b: seq<int>, now: int)
    requires c.requestCounter == a + b
    ensures AddRequestAndCheckIfRateLimited(c, now).client.requestCounter
            == Retained(a, now) + Retained(b, now) + [now]
  {
    Seqs.FilterConcat(a, b, InWindow(now));
  }

  /** A request exactly one window old is forgotten; one a millisecond younger
      still counts. */
  lemma WindowEdge(c: Client, now: int)
    ensures AddRequestAndCheckIfRateLimited(c.(requestCounter := [now - 5000]), now).client.requestCounter == [now]
    ensures AddRequestAndCheckIfRateLimited(c.(requestCounter := [now - 4999]), now).client.requestCounter == [now - 4999, now]
  {
    assert Retained([now - 5000], now) == [];
    assert Retained([now - 4999], now) == [now - 4999];
  }

  /** Requests made at the current instant are never forgotten by a check at
      that instant. */
  lemma SameInstant(c: Client, now: int)
    requires forall i :: 0 <= i < |c.requestCounter| ==> c.requestCounter[i] == now
    ensures AddRequestAndCheckIfRateLimited(c, now).client.requestCounter == c.requestCounter + [now]
  {
    Seqs.FilterKeepsAll(c.requestCounter, InWindow(now));
  }

  /** Three requests at the same instant on an empty log are allowed, allowed,
      and rate limited. */
  lemma ThreeRequestsAtOnce(c: Client, now: int)
    requires c.requestCounter == []
    ensures var first := AddRequestAndCheckIfRateLimited(c, now);
            var second := AddRequestAndCheckIfRateLimited(first.client, now);
            var third := AddRequestAndCheckIfRateLimited(second.client, now);
            && !first.limited && !second.limited && third.limited
            && third.client.requestCounter == [now, now, now]
  {
    SameInstant(c, now);
    var first := AddRequestAndCheckIfRateLimited(c, now);
    assert first.client.requestCounter == [now];
    SameInstant(first.client, now);
    var second := AddRequestAndCheckIfRateLimited(first.client, now);
    assert second.client.requestCounter == [now, now];
    SameInstant(second.client, now);
  }

  // ---------------------------------------------------------------- transport slot

  /** `setTransport`: a transport settles a pending slot in place, or replaces a
      settled slot with a new one already holding it; no transport replaces a
      settled slot with a new pending one and leaves a pending slot alone.
      Either way one `ACTIVE_TRANSPORT_SET` event carries the argument. */
  function SetTransport(c: Client, transport: Option<T.Transport>): (r: Client)
    ensures r.events == c.events + [ActiveTransportSet(transport)]
    ensures r.(slot := c.slot, events := c.events) == c
    ensures transport.Some? ==> PromiseResult(r.slot) == Some(transport.value)
    ensures transport.None? ==> !IsSettled(r.slot)
    ensures IsSettled(c.slot) ==> r.slot.instance == c.slot.instance + 1
    ensures !IsSettled(c.slot) ==> r.slot.instance == c.slot.instance
    ensures transport.None? && !IsSettled(c.slot) ==> r.slot == c.slot
  {
    var slot :=
      match transport
      case Some(t) => if IsSettled(c.slot) then PreSettled(c.slot.instance + 1, t) else Resolve(c.slot, t)
      case None => if IsSettled(c.slot) then Fresh(c.slot.instance + 1) else c.slot;
    c.(slot := slot, events := c.events + [ActiveTransportSet(transport)])
  }

  datatype InitResult = InitResult(client: Client, kind: T.TransportType)

  /** `init`: the first installed transport wins. On a settled slot it reports
      the installed transport's type and discards the argument; otherwise it
      installs the argument in the existing slot and reports its type. */
  function Init(c: Client, transport: T.Transport): (r: InitResult)
    ensures PromiseResult(r.client.slot).Some?
    ensures r.kind == PromiseResult(r.client.slot).value.kind
    ensures IsSettled(c.slot) ==> r.client == c
    ensures !IsSettled(c.slot) ==>
              && PromiseResult(r.client.slot) == Some(transport)
              && r.client.slot.instance == c.slot.instance
              && r.client.events == c.events + [ActiveTransportSet(Some(transport))]
              && r.client.(slot := c.slot, events := c.events) == c
  {
    if IsSettled(c.slot) then InitResult(c, c.slot.cell.value.kind)
    else InitResult(SetTransport(c, Some(transport)), transport.kind)
  }

  /** A second `init` with another transport reports the first one's type and
      leaves the first installed. */
  lemma InitTwice(c: Client, first: T.Transport, second: T.Transport)
    requires !IsSettled(c.slot)
    ensures var once := Init(c, first);
            var twice := Init(once.client, second);
            && twice.kind == first.kind
            && twice.client == once.client
            && PromiseResult(twice.client.slot) == Some(first)
  {
  }

  /** The client's status follows its slot: not connected while nothing is
      installed, the installed transport's status otherwise. */
  lemma ConnectionStatusFollowsSlot(c: Client, transport: T.Transport, listener: T.ListenerId)
    ensures ConnectionStatus(New(listener)) == T.NotConnected
    ensures ConnectionStatus(SetTransport(c, Some(transport))) == transport.status
    ensures ConnectionStatus(SetTransport(c, None)) == T.NotConnected
    ensures ConnectionStatus(SetTransport(c, Some(T.Connect(transport)))) == T.Connected
  {
  }

  /** Clearing an installed transport makes the client not connected, and a
      later `init` installs the new transport rather than the cleared one. */
  lemma ClearThenInit(c: Client, replacement: T.Transport)
    requires IsSettled(c.slot)
    ensures var cleared := SetTransport(c, None);
            && ConnectionStatus(cleared) == T.NotConnected
            && Init(cleared, replacement).kind == replacement.kind
            && PromiseResult(Init(cleared, replacement).client.slot) == Some(replacement)
            && Init(cleared, replacement).client.slot.instance == c.slot.instance + 1
  {
  }

  // ---------------------------------------------------------------- awaiting the slot

  /** The outcome of awaiting the slot: still suspended, or resumed with a value. */
  datatype Awaited<V> = Waiting | Resumed(value: V)

  /** `ready`: resumes once the slot is settled. */
  function Ready(c: Client): (r: Awaited<()>)
    ensures r.Resumed? <==> IsSettled(c.slot)
  {
    if IsSettled(c.slot) then Resumed(()) else Waiting
  }

  /** `getPeers`: awaits the slot, then asks the installed transport. */
  function GetPeers(c: Client): (r: Awaited<seq<T.PeerInfo>>)
    ensures r.Resumed? <==> IsSettled(c.slot)
    ensures r.Resumed? ==> r.value == T.GetPeers(PromiseResult(c.slot).value)
  {
    match c.slot.cell
    case Pending => Waiting
    case Settled(t) => Resumed(T.GetPeers(t))
  }

  /** `addPeer`: awaits the slot, then adds the peer on the installed transport,
      which stays in the same slot. */
  function AddPeer(c: Client, peer: T.PeerInfo): (r: Awaited<Client>)
    ensures r.Resumed? <==> IsSettled(c.slot)
    ensures r.Resumed? ==>
              && r.value.slot.instance == c.slot.instance
              && PromiseResult(r.value.slot) == Some(T.AddPeer(PromiseResult(c.slot).value, peer))
              && r.value.(slot := c.slot) == c
  {
    match c.slot.cell
    case Pending => Waiting
    case Settled(t) => Resumed(c.(slot := c.slot.(cell := Settled(T.AddPeer(t, peer)))))
  }

  /** Once installed, a transport answers every waiter: peers added through the
      client show up in what the client's `getPeers` returns. */
  lemma AddedPeerIsKnown(c: Client, peer: T.PeerInfo)
    requires IsSettled(c.slot)
    ensures var added := AddPeer(c, peer);
            && added.Resumed?
            && GetPeers(added.value).Resumed?
            && T.HasPeer(GetPeers(added.value).value, peer.publicKey)
  {
  }

  // ---------------------------------------------------------------- inbound

  /** `addListener`: registers the client's inbound listener on a transport. */
  function AddListener(c: Client, transport: T.Transport): (r: T.Transport)
    ensures r.listeners == transport.listeners + [c.listener]
    ensures r.(listeners := transport.listeners) == transport
  {
    T.AddListener(transport, c.listener)
  }

  /** `addListener` called with the transport the slot holds: the listener is
      registered on that same transport object, so the slot sees it. With
      nothing installed there is nothing to register on. */
  function AddListenerToInstalled(c: Client): (r: Client)
    ensures !IsSettled(c.slot) ==> r == c
    ensures IsSettled(c.slot) ==>
              && IsSettled(r.slot)
              && r.slot.instance == c.slot.instance
              && r.slot.cell.value == AddListener(c, c.slot.cell.value)
              && r.(slot := c.slot) == c
  {
    match c.slot.cell
    case Pending => c
    case Settled(t) => c.(slot := c.slot.(cell := Settled(AddListener(c, t))))
  }

  /** After `init` on an unsettled slot and registering on the installed
      transport, a text message that transport delivers reaches the hook once. */
  lemma InitThenListen(c: Client, transport: T.Transport, text: string,
                       context: T.ConnectionContext, invoked: seq<T.Invocation>)
    requires !IsSettled(c.slot) && c.listener !in transport.listeners
    requires var ls := AddListenerToInstalled(Init(c, transport).client).slot.cell.value.listeners;
             |invoked| == |ls| && forall i :: 0 <= i < |invoked| ==> invoked[i] == T.Invocation(ls[i], T.Text(text), context)
    ensures Dispatches(c, invoked) == [HandleResponse(text, context)]
  {
    var installed := Init(c, transport).client;
    assert installed.slot.cell.value == transport;
    assert installed.listener == c.listener;
    RegisteredOnceDispatchesOnce(c, transport, text, context, invoked);
  }

  /** The inbound listener's body: text goes to the dispatch hook with its
      context; anything else is dropped. */
  function OnMessage(message: T.Inbound, context: T.ConnectionContext): (r: Option<Dispatch>)
    ensures r.Some? <==> message.Text?
    ensures r.Some? ==> r.value.serialized == message.text && r.value.context == context
  {
    match message
    case Text(s) => Some(HandleResponse(s, context))
    case NonText(_) => None
  }

  /** The hook calls that a run of listener invocations causes: those of the
      client's own listener, in order. */
  function Dispatches(c: Client, invoked: seq<T.Invocation>): seq<Dispatch>
  {
    if |invoked| == 0 then []
    else
      var own := if invoked[0].listener == c.listener then OnMessage(invoked[0].message, invoked[0].context) else None;
      (if own.Some? then [own.value] else []) + Dispatches(c, invoked[1..])
  }

  /** Delivering a message to a transport's listeners reaches the client's
      hook once per registration of its listener when the message is text, and
      never otherwise. */
  lemma {:induction false} DeliveryReachesHandler(c: Client, listeners: seq<T.ListenerId>,
                                                  message: T.Inbound, context: T.ConnectionContext,
                                                  invoked: seq<T.Invocation>)
    requires |invoked| == |listeners|
    requires forall i :: 0 <= i < |invoked| ==> invoked[i] == T.Invocation(listeners[i], message, context)
    ensures message.Text? ==> |Dispatches(c, invoked)| == multiset(listeners)[c.listener]
    ensures message.Text? ==> forall d :: d in Dispatches(c, invoked) ==> d == HandleResponse(message.text, context)
    ensures message.NonText? ==> Dispatches(c, invoked) == []
  {
    if |invoked| != 0 {
      DeliveryReachesHandler(c, listeners[1..], message, context, invoked[1..]);
      assert listeners == [listeners[0]] + listeners[1..];
      assert multiset(listeners) == multiset{listeners[0]} + multiset(listeners[1..]);
    }
  }

  /** A client that registered its listener once on a transport gets exactly
      one hook call per text message that transport delivers. */
  lemma RegisteredOnceDispatchesOnce(c: Client, transport: T.Transport, text: string,
                                     context: T.ConnectionContext, invoked: seq<T.Invocation>)
    requires c.listener !in transport.listeners
    requires var ls := AddListener(c, transport).listeners;
             |invoked| == |ls| && forall i :: 0 <= i < |invoked| ==> invoked[i] == T.Invocation(ls[i], T.Text(text), context)
    ensures Dispatches(c, invoked) == [HandleResponse(text, context)]
  {
    var ls := AddListener(c, transport).listeners;
    DeliveryReachesHandler(c, ls, T.Text(text), context, invoked);
    assert multiset(transport.listeners)[c.listener] == 0;
    assert multiset(ls) == multiset(transport.listeners) + multiset{c.listener};
    var d := Dispatches(c, invoked);
    assert |d| == 1;
    assert d[0] in d;
  }
}
