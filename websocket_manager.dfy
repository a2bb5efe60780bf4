/**
  The realtime subscription registry (`WebSocketManager`): a map from each live
  connection to the set of poll ids it subscribed to, the inverse map from each
  poll id to its subscribers, and the fan-out of `poll_update` envelopes.

  Connections are opaque ids. Whether a connection's `readyState` is OPEN is kept
  in the manager's `open` set, which the transport changes; every attempt to send
  is appended to `outbox` together with whether it went out.
*/
module WebSocket {

  type ConnId = nat

  /** A poll id as the registry stores it. The source accepts any non-zero JSON
      number (also negative or fractional ones) and uses it as an object key, so
      `1` and `1.0` denote the same entry: that is the equality of `real`. */
  type PollKey = real

  datatype OptionResult = OptionResult(id: int, text: string, voteCount: int)

  /** The results snapshot fetched from the data service; the registry only passes it on. */
  datatype PollResults = PollResults(
    id: int, question: string, createdBy: int, createdAt: string, updatedAt: string,
    options: seq<OptionResult>, totalVotes: int)

  /** Server-to-client envelopes. */
  datatype Envelope =
    | SubscribeAck(pollId: PollKey)
    | UnsubscribeAck(pollId: PollKey)
    | PollUpdate(pollId: PollKey, results: PollResults)
    | ErrorEnvelope(message: string)

  /** One call of `sendToClient`: the message and whether it was handed to an open socket. */
  datatype Send = Send(to: ConnId, msg: Envelope, delivered: bool)

  /** A JSON value in the position of `payload.poll_id`. */
  datatype JsonValue = Absent | Null | Number(n: real) | Text(s: string) | Boolean(b: bool) | Composite

  /** The `payload` of an inbound message: `NoPayload` when it is `undefined` or `null`
      (destructuring it throws); any other value, an object or a primitive, gives the
      value of its `poll_id` property (`Absent` for a primitive). */
  datatype Payload = NoPayload | PayloadValue(pollId: JsonValue)

  /** A client-to-server frame: `Unparseable` when `JSON.parse` throws or yields `null`
      (reading `.type` throws); otherwise its `type` (the empty string when it has no
      string `type`) and payload. */
  datatype Inbound = Unparseable | Message(kind: string, payload: Payload)

  /** What one inbound frame asks of the registry. */
  datatype Action =
    | DoSubscribe(poll: PollKey)
    | DoUnsubscribe(poll: PollKey)
    | Reject(reason: string)

  const InvalidFormat := "Invalid message format"
  const UnknownType := "Unknown message type"
  const InvalidPollId := "Invalid poll_id"

  /** `!poll_id || typeof poll_id !== 'number'` rejects the id: only a non-zero number passes. */
  predicate IsAcceptedPollId(v: JsonValue) {
    v.Number? && v.n != 0.0
  }

  /** How `handleMessage` and the two handlers read a frame. */
  function Classify(frame: Inbound): (a: Action)
    ensures a.DoSubscribe? <==> frame.Message? && frame.kind == "subscribe" && frame.payload.PayloadValue? && IsAcceptedPollId(frame.payload.pollId)
    ensures a.DoUnsubscribe? <==> frame.Message? && frame.kind == "unsubscribe" && frame.payload.PayloadValue? && IsAcceptedPollId(frame.payload.pollId)
    ensures (a.DoSubscribe? || a.DoUnsubscribe?) ==> a.poll != 0.0 && frame.payload.pollId == Number(a.poll)
    ensures a == Reject(UnknownType) <==> frame.Message? && frame.kind != "subscribe" && frame.kind != "unsubscribe"
    ensures a == Reject(InvalidFormat) <==> frame.Unparseable? || (frame.Message? && (frame.kind == "subscribe" || frame.kind == "unsubscribe") && frame.payload.NoPayload?)
  {
    match frame
    case Unparseable => Reject(InvalidFormat)
    case Message(kind, payload) =>
      if kind != "subscribe" && kind != "unsubscribe" then Reject(UnknownType)
      else if payload.NoPayload? then Reject(InvalidFormat)
      else if !IsAcceptedPollId(payload.pollId) then Reject(InvalidPollId)
      else if kind == "subscribe" then DoSubscribe(payload.pollId.n)
      else DoUnsubscribe(payload.pollId.n)
  }

  // ---------------------------------------------------------------------------
  // The registry as a value, and the operations on it

  datatype Registry = Registry(clients: map<ConnId, set<PollKey>>, subscriptions: map<PollKey, set<ConnId>>)

  /** `subscriptions[p]`, with an absent entry read as the empty set. */
  function SubscribersOf(r: Registry, p: PollKey): set<ConnId> {
    if p in r.subscriptions then r.subscriptions[p] else {}
  }

  /** Bidirectional consistency, for registered connections. */
  ghost predicate Consistent(r: Registry) {
    forall ws, p :: ws in r.clients ==> (p in r.clients[ws] <==> ws in SubscribersOf(r, p))
  }

  /** No poll id keeps an empty subscriber set. */
  ghost predicate NoEmptyEntries(r: Registry) {
    forall p :: p in r.subscriptions ==> r.subscriptions[p] != {}
  }

  ghost predicate RegistryValid(r: Registry) {
    Consistent(r) && NoEmptyEntries(r)
  }

  /** A connection handle the registry has never seen. */
  ghost predicate IsNew(r: Registry, ws: ConnId) {
    ws !in r.clients && forall p :: p in r.subscriptions ==> ws !in r.subscriptions[p]
  }

  /** The `connection` event: a new connection with no subscriptions. */
  function Register(r: Registry, ws: ConnId): Registry {
    Registry(r.clients[ws := {}], r.subscriptions)
  }

  /** The two map updates of `handleSubscribe`. The client set is only updated
      when the connection is registered; the subscriber set always is. */
  function AddSubscription(r: Registry, ws: ConnId, p: PollKey): Registry {
    Registry(
      if ws in r.clients then r.clients[ws := r.clients[ws] + {p}] else r.clients,
      r.subscriptions[p := SubscribersOf(r, p) + {ws}])
  }

  /** Removes `ws` from the subscriber set of `p`, deleting the entry once empty. */
  function Detach(subs: map<PollKey, set<ConnId>>, ws: ConnId, p: PollKey): map<PollKey, set<ConnId>> {
    if p !in subs then subs
    else if subs[p] - {ws} == {} then subs - {p}
    else subs[p := subs[p] - {ws}]
  }

  /** The two map updates of `handleUnsubscribe`. */
  function RemoveSubscription(r: Registry, ws: ConnId, p: PollKey): Registry {
    Registry(
      if ws in r.clients then r.clients[ws := r.clients[ws] - {p}] else r.clients,
      Detach(r.subscriptions, ws, p))
  }

  /** `subs` after `Detach` for every poll id of `polls`, in any order. */
  function DetachAll(subs: map<PollKey, set<ConnId>>, ws: ConnId, polls: set<PollKey>): map<PollKey, set<ConnId>> {
    map p | p in subs && (p !in polls || subs[p] - {ws} != {}) :: if p in polls then subs[p] - {ws} else subs[p]
  }

  /** `handleDisconnect`: a registered connection is detached from each poll it
      subscribed to and then dropped; an unknown one changes nothing. */
  function Unregister(r: Registry, ws: ConnId): Registry {
    if ws in r.clients then Registry(r.clients - {ws}, DetachAll(r.subscriptions, ws, r.clients[ws]))
    else r
  }

  // ---------------------------------------------------------------------------
  // What the registry operations promise

  lemma RegisterKeepsValid(r: Registry, ws: ConnId)
    requires RegistryValid(r) && IsNew(r, ws)
    ensures RegistryValid(Register(r, ws))
    ensures ws in Register(r, ws).clients && Register(r, ws).clients[ws] == {}
  {
    var r' := Register(r, ws);
    forall c, q | c in r'.clients
      ensures q in r'.clients[c] <==> c in SubscribersOf(r', q)
    {
      if c != ws {
        assert q in r.clients[c] <==> c in SubscribersOf(r, q);
      }
    }
  }

  /** A valid subscribe puts the poll id in the client's set and the connection in
      the poll's subscriber set, and keeps the registry valid. */
  lemma SubscribeKeepsValid(r: Registry, ws: ConnId, p: PollKey)
    requires RegistryValid(r)
    ensures RegistryValid(AddSubscription(r, ws, p))
    ensures ws in SubscribersOf(AddSubscription(r, ws, p), p)
    ensures ws in r.clients ==> p in AddSubscription(r, ws, p).clients[ws]
    ensures AddSubscription(r, ws, p).clients.Keys == r.clients.Keys
  {
    var r' := AddSubscription(r, ws, p);
    forall c, q | c in r'.clients
      ensures q in r'.clients[c] <==> c in SubscribersOf(r', q)
    {
      assert q in r.clients[c] <==> c in SubscribersOf(r, q);
    }
  }

  /** Subscribing touches no other (connection, poll) pair. */
  lemma SubscribeIsLocal(r: Registry, ws: ConnId, p: PollKey, c: ConnId, q: PollKey)
    requires c != ws || q != p
    ensures c in SubscribersOf(AddSubscription(r, ws, p), q) <==> c in SubscribersOf(r, q)
    ensures c in r.clients ==> (q in AddSubscription(r, ws, p).clients[c] <==> q in r.clients[c])
  {
  }

  /** Unsubscribe removes the pair in both directions and keeps the registry valid. */
  lemma UnsubscribeKeepsValid(r: Registry, ws: ConnId, p: PollKey)
    requires RegistryValid(r)
    ensures RegistryValid(RemoveSubscription(r, ws, p))
    ensures ws !in SubscribersOf(RemoveSubscription(r, ws, p), p)
    ensures ws in r.clients ==> p !in RemoveSubscription(r, ws, p).clients[ws]
    ensures RemoveSubscription(r, ws, p).clients.Keys == r.clients.Keys
  {
    var r' := RemoveSubscription(r, ws, p);
    forall c, q | c in r'.clients
      ensures q in r'.clients[c] <==> c in SubscribersOf(r', q)
    {
      assert q in r.clients[c] <==> c in SubscribersOf(r, q);
    }
  }

  /** Unsubscribing a registered connection from a poll it is not subscribed to
      changes nothing. */
  lemma UnsubscribeAbsentIsNoOp(r: Registry, ws: ConnId, p: PollKey)
    requires RegistryValid(r) && ws in r.clients && p !in r.clients[ws]
    ensures RemoveSubscription(r, ws, p) == r
  {
    assert r.clients[ws] - {p} == r.clients[ws];
    assert r.clients[ws := r.clients[ws] - {p}] == r.clients;
    if p in r.subscriptions {
      assert p in r.clients[ws] <==> ws in SubscribersOf(r, p);
      assert ws !in r.subscriptions[p];
      assert r.subscriptions[p] - {ws} == r.subscriptions[p];
      assert r.subscriptions[p := r.subscriptions[p]] == r.subscriptions;
    }
  }

  /** Unsubscribing touches no other (connection, poll) pair. */
  lemma UnsubscribeIsLocal(r: Registry, ws: ConnId, p: PollKey, c: ConnId, q: PollKey)
    requires c != ws || q != p
    ensures c in SubscribersOf(RemoveSubscription(r, ws, p), q) <==> c in SubscribersOf(r, q)
    ensures c in r.clients ==> (q in RemoveSubscription(r, ws, p).clients[c] <==> q in r.clients[c])
  {
  }

  /** Disconnect removes the connection from the registry and from every subscriber
      set, keeps every other pair, and keeps the registry valid. */
  lemma UnregisterKeepsValid(r: Registry, ws: ConnId)
    requires RegistryValid(r)
    ensures RegistryValid(Unregister(r, ws))
    ensures ws in r.clients ==> IsNew(Unregister(r, ws), ws)
    ensures Unregister(r, ws).clients.Keys == r.clients.Keys - {ws}
    ensures forall c, q :: c != ws ==> (c in SubscribersOf(Unregister(r, ws), q) <==> c in SubscribersOf(r, q))
  {
    var r' := Unregister(r, ws);
    if ws in r.clients {
      forall c, q | c != ws
        ensures c in SubscribersOf(r', q) <==> c in SubscribersOf(r, q)
      {
      }
      forall q | q in r'.subscriptions
        ensures ws !in r'.subscriptions[q]
      {
        assert ws in SubscribersOf(r, q) ==> q in r.clients[ws];
      }
      forall c, q | c in r'.clients
        ensures q in r'.clients[c] <==> c in SubscribersOf(r', q)
      {
        assert q in r.clients[c] <==> c in SubscribersOf(r, q);
      }
    }
  }

  /** The order in which `handleDisconnect` walks the client's polls does not matter:
      detaching one more poll extends `DetachAll` by that poll. */
  lemma DetachAllStep(subs: map<PollKey, set<ConnId>>, ws: ConnId, done: set<PollKey>, p: PollKey)
    requires p !in done
    requires forall q :: q in subs ==> subs[q] != {}
    ensures Detach(DetachAll(subs, ws, done), ws, p) == DetachAll(subs, ws, done + {p})
  {
    var left := Detach(DetachAll(subs, ws, done), ws, p);
    var right := DetachAll(subs, ws, done + {p});
    assert left.Keys == right.Keys;
    forall q | q in left
      ensures left[q] == right[q]
    {
    }
  }

  /** Some member of a non-empty set. */
  ghost function Member<T>(s: set<T>): T
    requires s != {}
  {
    var x :| x in s; x
  }

  lemma DetachAllNothing(subs: map<PollKey, set<ConnId>>, ws: ConnId)
    requires forall q :: q in subs ==> subs[q] != {}
    ensures DetachAll(subs, ws, {}) == subs
  {
  }

  // ---------------------------------------------------------------------------
  // Broadcast

  /** The connections a sequence of sends went to. */
  function Recipients(sends: seq<Send>): set<ConnId> {
    set i | 0 <= i < |sends| :: sends[i].to
  }

  /** `sends` is one attempt to deliver `msg` to each connection of `subs` (in some
      order), each delivered exactly when that connection is open. */
  ghost predicate IsFanOut(sends: seq<Send>, subs: set<ConnId>, msg: Envelope, open: set<ConnId>)
    decreases |sends|
  {
    if sends == [] then subs == {}
    else
      var last := sends[|sends| - 1];
      && last.to in subs && last.msg == msg && last.delivered == (last.to in open)
      && IsFanOut(sends[..|sends| - 1], subs - {last.to}, msg, open)
  }

  /** Extending a fan-out to one more connection. */
  lemma SendsAppend(a: seq<Send>, b: seq<Send>, x: Send)
    ensures (a + b) + [x] == a + (b + [x])
  {
  }

  lemma FanOutStep(sends: seq<Send>, done: set<ConnId>, msg: Envelope, open: set<ConnId>, ws: ConnId)
    requires IsFanOut(sends, done, msg, open) && ws !in done
    ensures IsFanOut(sends + [Send(ws, msg, ws in open)], done + {ws}, msg, open)
  {
    var ext := sends + [Send(ws, msg, ws in open)];
    assert ext[..|ext| - 1] == sends;
    assert (done + {ws}) - {ws} == done;
  }

  /** A fan-out makes exactly one attempt per subscriber: as many sends as
      subscribers, every send carries the message to a subscriber and is delivered
      iff that subscriber is open, and every subscriber is reached. */
  lemma {:induction false} FanOutIsOncePerSubscriber(sends: seq<Send>, subs: set<ConnId>, msg: Envelope, open: set<ConnId>)
    requires IsFanOut(sends, subs, msg, open)
    ensures |sends| == |subs| && Recipients(sends) == subs
    ensures forall i :: 0 <= i < |sends| ==> sends[i].msg == msg && sends[i].delivered == (sends[i].to in open)
  {
    if sends != [] {
      var init := sends[..|sends| - 1];
      var last := sends[|sends| - 1];
      FanOutIsOncePerSubscriber(init, subs - {last.to}, msg, open);
      assert subs == (subs - {last.to}) + {last.to};
      RecipientsSnoc(init, last);
      assert init + [last] == sends;
      forall i | 0 <= i < |sends|
        ensures sends[i].msg == msg && sends[i].delivered == (sends[i].to in open)
      {
        if i < |init| { assert sends[i] == init[i]; }
      }
    }
  }

  /** No subscriber gets two attempts. */
  lemma {:induction false} FanOutHasNoRepeats(sends: seq<Send>, subs: set<ConnId>, msg: Envelope, open: set<ConnId>, i: int, j: int)
    requires IsFanOut(sends, subs, msg, open)
    requires 0 <= i < j < |sends|
    ensures sends[i].to != sends[j].to
  {
    var init := sends[..|sends| - 1];
    var last := sends[|sends| - 1];
    if j < |sends| - 1 {
      FanOutHasNoRepeats(init, subs - {last.to}, msg, open, i, j);
    } else {
      FanOutIsOncePerSubscriber(init, subs - {last.to}, msg, open);
      assert init[i].to in Recipients(init);
    }
  }

  lemma RecipientsSnoc(sends: seq<Send>, s: Send)
    ensures Recipients(sends + [s]) == Recipients(sends) + {s.to}
  {
    var ext := sends + [s];
    forall c | c in Recipients(ext) ensures c in Recipients(sends) + {s.to} {
      var k :| 0 <= k < |ext| && ext[k].to == c;
      if k < |sends| { assert ext[k] == sends[k]; }
    }
    forall c | c in Recipients(sends) ensures c in Recipients(ext) {
      var k :| 0 <= k < |sends| && sends[k].to == c;
      assert ext[k] == sends[k];
    }
    assert ext[|sends|] == s;
  }

  /** Counts of delivered and failed sends over the connections `done`. */
  ghost predicate Tallied(done: set<ConnId>, open: set<ConnId>, successCount: nat, failCount: nat) {
    successCount == |done * open| && failCount == |done - open|
  }

  lemma TallyStep(done: set<ConnId>, open: set<ConnId>, successCount: nat, failCount: nat, ws: ConnId)
    requires Tallied(done, open, successCount, failCount) && ws !in done
    ensures ws in open ==> Tallied(done + {ws}, open, successCount + 1, failCount)
    ensures ws !in open ==> Tallied(done + {ws}, open, successCount, failCount + 1)
  {
    CountStep(done, ws, open);
  }

  /** Adding one connection to a set adds one to exactly one of its open and non-open parts. */
  lemma CountStep(done: set<ConnId>, ws: ConnId, open: set<ConnId>)
    requires ws !in done
    ensures |(done + {ws}) * open| == |done * open| + (if ws in open then 1 else 0)
    ensures |(done + {ws}) - open| == |done - open| + (if ws in open then 0 else 1)
  {
    if ws in open {
      assert (done + {ws}) * open == done * open + {ws};
      assert (done + {ws}) - open == done - open;
    } else {
      assert (done + {ws}) * open == done * open;
      assert (done + {ws}) - open == done - open + {ws};
    }
  }

  /** A set splits into its open and its non-open members. */
  lemma SplitByOpen(subs: set<ConnId>, open: set<ConnId>)
    ensures |subs| == |subs * open| + |subs - open|
  {
    assert subs == (subs * open) + (subs - open);
    assert (subs * open) !! (subs - open);
  }

  // ---------------------------------------------------------------------------
  // The manager object

  class WebSocketManager {
    var clients: map<ConnId, set<PollKey>>
    var subscriptions: map<PollKey, set<ConnId>>
    /** Connections whose `readyState` is OPEN (owned by the transport). */
    var open: set<ConnId>
    /** Every `sendToClient` call, in order. */
    var outbox: seq<Send>

    function State(): Registry
      reads this`clients, this`subscriptions
    {
      Registry(clients, subscriptions)
    }

    ghost predicate Valid()
      reads this`clients, this`subscriptions
    {
      RegistryValid(State())
    }

    constructor ()
      ensures Valid()
      ensures clients == map[] && subscriptions == map[] && open == {} && outbox == []
    {
      clients := map[];
      subscriptions := map[];
      open := {};
      outbox := [];
    }

    /** The `connection` event: a fresh, open connection with no subscriptions. */
    method Connect(ws: ConnId)
      requires Valid() && IsNew(State(), ws)
      modifies this
      ensures Valid()
      ensures State() == Register(old(State()), ws)
      ensures open == old(open) + {ws} && outbox == old(outbox)
    {
      RegisterKeepsValid(State(), ws);
      clients := clients[ws := {}];
      open := open + {ws};
    }

    /** The transport moves a socket out of OPEN (closing, closed); the registry is not told. */
    method SocketClosed(ws: ConnId)
      modifies this`open
      ensures open == old(open) - {ws}
    {
      open := open - {ws};
    }

    /** `sendToClient`: succeeds exactly when the socket is OPEN. */
    method SendToClient(ws: ConnId, msg: Envelope) returns (ok: bool)
      modifies this`outbox
      ensures ok == (ws in open)
      ensures outbox == old(outbox) + [Send(ws, msg, ok)]
    {
      ok := ws in open;
      outbox := outbox + [Send(ws, msg, ok)];
    }

    /** `sendError`: one `error` envelope to the given connection. */
    method SendError(ws: ConnId, message: string)
      modifies this`outbox
      ensures outbox == old(outbox) + [Send(ws, ErrorEnvelope(message), ws in open)]
    {
      var _ := SendToClient(ws, ErrorEnvelope(message));
    }

    /** `handleMessage` with the two handlers it dispatches to. */
    method HandleMessage(ws: ConnId, frame: Inbound)
      requires Valid()
      modifies this`clients, this`subscriptions, this`outbox
      ensures Valid()
      ensures match Classify(frame)
        case DoSubscribe(p) =>
          && State() == AddSubscription(old(State()), ws, p)
          && outbox == old(outbox) + [Send(ws, SubscribeAck(p), ws in open)]
        case DoUnsubscribe(p) =>
          && State() == RemoveSubscription(old(State()), ws, p)
          && outbox == old(outbox) + [Send(ws, UnsubscribeAck(p), ws in open)]
        case Reject(reason) =>
          && State() == old(State())
          && outbox == old(outbox) + [Send(ws, ErrorEnvelope(reason), ws in open)]
    {
      match frame
      case Unparseable =>
        SendError(ws, InvalidFormat);
      case Message(kind, payload) =>
        if kind == "subscribe" || kind == "unsubscribe" {
          if payload.NoPayload? {
            // destructuring an undefined or null payload throws; handleMessage's catch answers
            SendError(ws, InvalidFormat);
          } else if kind == "subscribe" {
            HandleSubscribe(ws, payload.pollId);
          } else {
            HandleUnsubscribe(ws, payload.pollId);
          }
        } else {
          SendError(ws, UnknownType);
        }
    }

    method HandleSubscribe(ws: ConnId, pollId: JsonValue)
      requires Valid()
      modifies this`clients, this`subscriptions, this`outbox
      ensures Valid()
      ensures !IsAcceptedPollId(pollId) ==>
        State() == old(State()) && outbox == old(outbox) + [Send(ws, ErrorEnvelope(InvalidPollId), ws in open)]
      ensures IsAcceptedPollId(pollId) ==>
        && State() == AddSubscription(old(State()), ws, pollId.n)
        && outbox == old(outbox) + [Send(ws, SubscribeAck(pollId.n), ws in open)]
    {
      if !IsAcceptedPollId(pollId) {
        SendError(ws, InvalidPollId);
        return;
      }
      var p := pollId.n;
      SubscribeKeepsValid(State(), ws, p);
      if ws in clients {
        clients := clients[ws := clients[ws] + {p}];
      }
      if p !in subscriptions {
        subscriptions := subscriptions[p := {}];
      }
      subscriptions := subscriptions[p := subscriptions[p] + {ws}];
      assert State() == AddSubscription(old(State()), ws, p);
      assert Valid();
      var _ := SendToClient(ws, SubscribeAck(p));
    }

    method HandleUnsubscribe(ws: ConnId, pollId: JsonValue)
      requires Valid()
      modifies this`clients, this`subscriptions, this`outbox
      ensures Valid()
      ensures !IsAcceptedPollId(pollId) ==>
        State() == old(State()) && outbox == old(outbox) + [Send(ws, ErrorEnvelope(InvalidPollId), ws in open)]
      ensures IsAcceptedPollId(pollId) ==>
        && State() == RemoveSubscription(old(State()), ws, pollId.n)
        && outbox == old(outbox) + [Send(ws, UnsubscribeAck(pollId.n), ws in open)]
    {
      if !IsAcceptedPollId(pollId) {
        SendError(ws, InvalidPollId);
        return;
      }
      var p := pollId.n;
      UnsubscribeKeepsValid(State(), ws, p);
      if ws in clients {
        clients := clients[ws := clients[ws] - {p}];
      }
      subscriptions := DetachOne(subscriptions, ws, p);
      assert State() == RemoveSubscription(old(State()), ws, p);
      assert Valid();
      var _ := SendToClient(ws, UnsubscribeAck(p));
    }

    /** The `close` and `error` events. */
    method HandleDisconnect(ws: ConnId)
      requires Valid()
      modifies this`clients, this`subscriptions
      ensures Valid()
      ensures State() == Unregister(old(State()), ws)
    {
      UnregisterKeepsValid(State(), ws);
      if ws !in clients {
        return;
      }
      DetachFromAll(ws, clients[ws]);
      clients := clients - {ws};
    }

    /** The loop of `handleDisconnect`: detach `ws` from each poll id of `polls`. */
    method DetachFromAll(ws: ConnId, polls: set<PollKey>)
      requires forall q :: q in subscriptions ==> subscriptions[q] != {}
      modifies this`subscriptions
      ensures subscriptions == DetachAll(old(subscriptions), ws, polls)
    {
      var remaining := polls;
      ghost var subs0 := subscriptions;
      DetachAllNothing(subs0, ws);
      while remaining != {}
        invariant remaining <= polls
        invariant subscriptions == DetachAll(subs0, ws, polls - remaining)
        decreases remaining
      {
        // the solver finds no member of a non-empty set of reals unaided: name one
        ghost var some: PollKey := Member(remaining);
        assert some in remaining;
        var p :| p in remaining;
        DetachAllStep(subs0, ws, polls - remaining, p);
        subscriptions := DetachOne(subscriptions, ws, p);
        remaining := remaining - {p};
        assert polls - remaining == (polls - (remaining + {p})) + {p};
      }
      assert polls - remaining == polls;
    }

    /** `broadcastPollUpdate`: one `poll_update` attempt per current subscriber;
        returns the numbers of delivered and failed sends. */
    method BroadcastPollUpdate(pollId: PollKey, results: PollResults) returns (successCount: nat, failCount: nat)
      modifies this`outbox
      ensures exists sends: seq<Send> ::
        && outbox == old(outbox) + sends
        && IsFanOut(sends, SubscribersOf(State(), pollId), PollUpdate(pollId, results), open)
      ensures successCount == |SubscribersOf(State(), pollId) * open|
      ensures failCount == |SubscribersOf(State(), pollId) - open|
      ensures successCount + failCount == |SubscribersOf(State(), pollId)|
    {
      var subs := SubscribersOf(State(), pollId);
      SplitByOpen(subs, open);
      if subs == {} {
        // no subscribers: nothing is sent
        assert outbox == old(outbox) + [] && IsFanOut([], subs, PollUpdate(pollId, results), open);
        return 0, 0;
      }
      ghost var sent;
      successCount, failCount, sent := SendToEach(subs, PollUpdate(pollId, results));
    }

    /** The `forEach` of `broadcastPollUpdate`: one `sendToClient` per connection of `subs`. */
    method SendToEach(subs: set<ConnId>, msg: Envelope) returns (successCount: nat, failCount: nat, ghost sent: seq<Send>)
      modifies this`outbox
      ensures outbox == old(outbox) + sent && IsFanOut(sent, subs, msg, open)
      ensures Tallied(subs, open, successCount, failCount)
    {
      successCount, failCount := 0, 0;
      var remaining := subs;
      ghost var done: set<ConnId> := {};
      sent := [];
      while remaining != {}
        invariant done + remaining == subs && done !! remaining
        invariant outbox == old(outbox) + sent
        invariant IsFanOut(sent, done, msg, open)
        invariant Tallied(done, open, successCount, failCount)
        decreases remaining
      {
        var ws :| ws in remaining;
        TallyStep(done, open, successCount, failCount, ws);
        FanOutStep(sent, done, msg, open, ws);
        var ok := SendToClient(ws, msg);
        if ok {
          successCount := successCount + 1;
        } else {
          failCount := failCount + 1;
        }
        SendsAppend(old(outbox), sent, Send(ws, msg, ok));
        sent := sent + [Send(ws, msg, ok)];
        done := done + {ws};
        remaining := remaining - {ws};
      }
    }

    /** `getSubscriberCount`: the size of the poll's subscriber set, 0 when it has none. */
    function GetSubscriberCount(pollId: PollKey): (n: nat)
      reads this
      ensures n == |SubscribersOf(State(), pollId)|
      ensures pollId !in subscriptions ==> n == 0
    {
      if pollId in subscriptions then |subscriptions[pollId]| else 0
    }

    /** `getTotalConnections`: the number of registered connections. */
    function GetTotalConnections(): (n: nat)
      reads this
      ensures n == |clients.Keys|
    {
      |clients|
    }
  }

  /** One step of the disconnect loop and of unsubscribe (executable `Detach`). */
  function DetachOne(subs: map<PollKey, set<ConnId>>, ws: ConnId, p: PollKey): (r: map<PollKey, set<ConnId>>)
    ensures r == Detach(subs, ws, p)
  {
    if p in subs then
      var rest := subs[p] - {ws};
      if |rest| == 0 then subs - {p} else subs[p := rest]
    else subs
  }
}
