/**
  The two entry points through which a vote mutation elsewhere becomes a
  broadcast: the gRPC `NotifyPollUpdate` handler and the HTTP route
  `POST /notify/poll/:pollId`. Both fetch fresh results, broadcast them through
  the registry and answer with the subscriber count read after the broadcast.
*/
module Notify {
  import opened Wrappers
  import opened JsStrings
  import opened WebSocket

  /** An error thrown by a collaborator: its message and, for an `AppError`, its status code. */
  datatype Thrown = Thrown(message: string, statusCode: Option<int>)

  datatype GrpcCode = NotFound | Internal

  datatype GrpcReply =
    | NotifyOk(pollId: int, subscriberCount: nat)
    | GrpcError(code: GrpcCode, message: string)

  /** The realtime polls service's `getPollResults` over the API client's answer:
      an empty answer is thrown as `AppError('Poll not found', 404)`, a failure of
      the client propagates. */
  function PollServiceResults(api: Result<Option<PollResults>, Thrown>): (r: Result<PollResults, Thrown>)
    ensures api == Success(None) ==> r == Failure(Thrown("Poll not found", Some(404)))
    ensures api.Failure? ==> r == Failure(api.error)
    ensures r.Success? <==> api.Success? && api.value.Some?
    ensures r.Success? ==> r.value == api.value.value
  {
    match api
    case Failure(e) => Failure(e)
    case Success(None) => Failure(Thrown("Poll not found", Some(404)))
    case Success(Some(results)) => Success(results)
  }

  /** The value the gRPC handler awaits, seen as possibly `null`. */
  function AsNullable(r: Result<PollResults, Thrown>): Result<Option<PollResults>, Thrown> {
    match r
    case Success(v) => Success(Some(v))
    case Failure(e) => Failure(e)
  }

  /** The error branches of `NotifyPollUpdate`: `None` when the broadcast goes ahead. */
  function GrpcFailure(pollId: int, fetched: Result<Option<PollResults>, Thrown>): (r: Option<GrpcReply>)
    ensures r.None? <==> fetched.Success? && fetched.value.Some?
    ensures fetched == Success(None) ==> r == Some(GrpcError(NotFound, "Poll " + IntToString(pollId) + " not found"))
    ensures fetched.Failure? ==> r == Some(GrpcError(Internal, fetched.error.message))
  {
    match fetched
    case Failure(e) => Some(GrpcError(Internal, e.message))
    case Success(None) => Some(GrpcError(NotFound, "Poll " + IntToString(pollId) + " not found"))
    case Success(Some(_)) => None
  }

  /** With the actual service, which throws instead of returning `null`, the
      NOT_FOUND branch is unreachable: a missing poll is answered INTERNAL with the
      service's message. */
  lemma NotFoundSurfacesAsInternal(pollId: int, api: Result<Option<PollResults>, Thrown>)
    ensures var reply := GrpcFailure(pollId, AsNullable(PollServiceResults(api)));
      && (reply.Some? ==> reply.value.code == Internal)
      && (api == Success(None) ==> reply == Some(GrpcError(Internal, "Poll not found")))
  {
  }

  /** `NotifyPollUpdate`: on fetched results, broadcast once and answer with the
      registry's subscriber count after the broadcast; otherwise answer the error
      and send nothing. */
  method NotifyPollUpdate(m: WebSocketManager, pollId: int, fetched: Result<Option<PollResults>, Thrown>)
    returns (reply: GrpcReply)
    modifies m`outbox
    ensures GrpcFailure(pollId, fetched).Some? ==>
      reply == GrpcFailure(pollId, fetched).value && m.outbox == old(m.outbox)
    ensures GrpcFailure(pollId, fetched).None? ==>
      && (exists sends: seq<Send> ::
            && m.outbox == old(m.outbox) + sends
            && IsFanOut(sends, SubscribersOf(m.State(), pollId as real), PollUpdate(pollId as real, fetched.value.value), m.open))
      && reply == NotifyOk(pollId, m.GetSubscriberCount(pollId as real))
      && reply.subscriberCount == |SubscribersOf(m.State(), pollId as real)|
  {
    var failure := GrpcFailure(pollId, fetched);
    if failure.Some? {
      return failure.value;
    }
    var results := fetched.value.value;
    var _, _ := m.BroadcastPollUpdate(pollId as real, results);
    var subscriberCount := m.GetSubscriberCount(pollId as real);
    reply := NotifyOk(pollId, subscriberCount);
  }

  datatype HttpBody =
    | InvalidPollIdBody
    | NotifiedBody(pollId: int, subscriberCount: nat)

  /** What the route does with the request: a JSON response, or `next(err)`. */
  datatype HttpOutcome = Respond(status: nat, body: HttpBody) | Forward(error: Thrown)

  /** `POST /notify/poll/:pollId`. `fetchedFor` is the id the results were requested
      for, `None` when no fetch happened. */
  method NotifyHttp(m: WebSocketManager, pollIdParam: string, fetch: int -> Result<PollResults, Thrown>)
    returns (outcome: HttpOutcome, fetchedFor: Option<int>)
    modifies m`outbox
    ensures ParseInt(pollIdParam).None? ==>
      && outcome == Respond(400, InvalidPollIdBody) && fetchedFor == None
      && m.outbox == old(m.outbox)
    ensures ParseInt(pollIdParam).Some? ==>
      var id := ParseInt(pollIdParam).value;
      && fetchedFor == Some(id)
      && (fetch(id).Failure? ==> outcome == Forward(fetch(id).error) && m.outbox == old(m.outbox))
      && (fetch(id).Success? ==>
            && (exists sends: seq<Send> ::
                  && m.outbox == old(m.outbox) + sends
                  && IsFanOut(sends, SubscribersOf(m.State(), id as real), PollUpdate(id as real, fetch(id).value), m.open))
            && outcome == Respond(200, NotifiedBody(id, |SubscribersOf(m.State(), id as real)|)))
  {
    var parsed := ParseInt(pollIdParam);
    if parsed.None? {
      return Respond(400, InvalidPollIdBody), None;
    }
    var pollId := parsed.value;
    fetchedFor := Some(pollId);
    var results := fetch(pollId);
    if results.Failure? {
      return Forward(results.error), fetchedFor;
    }
    var _, _ := m.BroadcastPollUpdate(pollId as real, results.value);
    var subscriberCount := m.GetSubscriberCount(pollId as real);
    outcome := Respond(200, NotifiedBody(pollId, subscriberCount));
  }

  /** A client connects and subscribes to poll 1; a notification reaches it once. */
  method ScenarioSubscribeNotify(results: PollResults) {
    var m := new WebSocketManager();
    m.Connect(7);
    m.HandleMessage(7, Message("subscribe", PayloadValue(Number(1.0))));
    assert m.outbox == [Send(7, SubscribeAck(1.0), true)];
    assert SubscribersOf(m.State(), 1.0) == {7};

    var reply := NotifyPollUpdate(m, 1, Success(Some(results)));
    assert reply == NotifyOk(1, 1);
    ghost var sends: seq<Send> :| m.outbox == [Send(7, SubscribeAck(1.0), true)] + sends
                 && IsFanOut(sends, {7}, PollUpdate(1.0, results), {7});
    FanOutIsOncePerSubscriber(sends, {7}, PollUpdate(1.0, results), {7});
    assert sends[0].to in Recipients(sends);
    assert m.outbox[1] == Send(7, PollUpdate(1.0, results), true);
  }

  /** After a subscribed client disconnects, a notification reaches nobody and is no error. */
  method ScenarioNotifyAfterDisconnect(results: PollResults) {
    var m := new WebSocketManager();
    m.Connect(7);
    m.HandleMessage(7, Message("subscribe", PayloadValue(Number(1.0))));
    m.SocketClosed(7);
    m.HandleDisconnect(7);
    assert m.GetTotalConnections() == 0;
    assert SubscribersOf(m.State(), 1.0) == {};
    var before := m.outbox;
    var reply := NotifyPollUpdate(m, 1, Success(Some(results)));
    assert reply == NotifyOk(1, 0);
    ghost var sends: seq<Send> :| m.outbox == before + sends && IsFanOut(sends, {}, PollUpdate(1.0, results), {});
    assert m.outbox == before;
  }

  /** A subscribe frame whose `poll_id` is a string gets one error envelope and
      changes no subscription; the connection stays registered. */
  method ScenarioMalformedPollId() {
    var m := new WebSocketManager();
    m.Connect(3);
    m.HandleMessage(3, Message("subscribe", PayloadValue(Text("abc"))));
    assert m.outbox == [Send(3, ErrorEnvelope("Invalid poll_id"), true)];
    assert m.subscriptions == map[];
    assert 3 in m.clients;
  }
}
