/** The signaling relay of back-end/index.js: one registry of negotiation
    sessions keyed by id, and a router that handles each inbound frame of a
    connection by its `type`, updates the registry and emits frames.

    Connections are integer handles; `ready` maps a handle to the
    `readyState` of its socket. Sending a frame (`sendData`) is recorded as a
    `Send` in the outcome of the step. A step that dereferences something
    missing throws a TypeError in the relay; here it is a `Fault`, and in
    every such case the throw happens before any write or send. */
module Relay {
  import opened Protocol

  /** WebSocket `readyState` values 0..3. */
  datatype ReadyState = Connecting | Open | Closing | Closed

  /** The `data` object of an inbound frame; a missing property is `None`. */
  datatype Fields = Fields(sessionId: Option<SessionId>, offer: Option<Blob>,
                           answer: Option<Blob>, iceCandidates: Option<Blob>)

  /** An inbound frame `{type, data}`; `data` may be absent. */
  datatype Request = Request(kind: string, data: Option<Fields>)

  /** A registry record. `answer` is a property the record could carry and
      that `get-all-offers` reads; no handler ever writes it. */
  datatype Session = Session(id: SessionId, offer: Option<Blob>, offerConnection: ConnId,
                             answerConnection: Option<ConnId>, answer: Option<Blob>)

  /** One call of `sendData(to, envelope)`. */
  datatype Send = Send(to: ConnId, envelope: Envelope)

  /** What the relay dereferenced when it threw: `data` itself, the session
      looked up by `data.sessionId`, or the other party of that session. */
  datatype Cause = DataMissing | SessionMissing | OtherPartyMissing

  datatype Outcome = Done(sent: seq<Send>) | Fault(cause: Cause)

  /** The registry after one step, with what the step sent. `order` lists the
      keys in insertion order, the order in which `Object.values` walks them. */
  datatype Transition = Transition(sessions: map<SessionId, Session>, order: seq<SessionId>, out: Outcome)

  /** The other connection of a session, as found by `leave`, `leave-other` and `send-icecandidate`. */
  datatype Target = Target(key: SessionId, other: ConnId)
  datatype Located = Found(target: Target) | Missing(cause: Cause)

  const NoOfferMatched := "No offer matched the id sent"
  const InvalidCommand := "Invalid command"

  function Reply(kind: string, status: Option<Status>, data: Payload): Envelope
  {
    Envelope(kind, status, data, None)
  }

  predicate Distinct(s: seq<SessionId>)
  {
    forall i, j :: 0 <= i < j < |s| ==> s[i] != s[j]
  }

  /** What every reachable registry satisfies: the key order enumerates the
      keys once each, every record carries its own key as `id`, and no
      record has an `answer`. */
  ghost predicate Inv(sessions: map<SessionId, Session>, order: seq<SessionId>)
  {
    && Distinct(order)
    && (forall k :: k in sessions <==> k in order)
    && (forall k :: k in sessions ==> sessions[k].id == k && sessions[k].answer.None?)
  }

  /** `rtcOfferSignalSession[data.sessionId]`, with `data` already present. */
  function Find(sessions: map<SessionId, Session>, sid: Option<SessionId>): (r: Option<Session>)
    ensures r.Some? <==> sid.Some? && sid.value in sessions
    ensures r.Some? ==> r.value == sessions[sid.value]
  {
    if sid.Some? && sid.value in sessions then Some(sessions[sid.value]) else None
  }

  /** The connection on the other side of `s` from `src`: the answering one
      when `src` offered, and the offering one otherwise, even when `src`
      takes no part in the session. */
  function OtherParty(s: Session, src: ConnId): (r: Option<ConnId>)
    ensures r.None? <==> src == s.offerConnection && s.answerConnection.None?
    ensures r.Some? ==> r.value == s.offerConnection || Some(r.value) == s.answerConnection
    ensures r == Some(src) ==> s.answerConnection == Some(s.offerConnection)
    ensures src != s.offerConnection ==> r == Some(s.offerConnection)
  {
    if src == s.offerConnection then s.answerConnection else Some(s.offerConnection)
  }

  /** The lookup shared by `leave`, `leave-other` and `send-icecandidate`,
      with the three places where the relay throws. */
  function Locate(sessions: map<SessionId, Session>, src: ConnId, data: Option<Fields>): (r: Located)
    ensures r.Found? <==> data.Some? && Find(sessions, data.value.sessionId).Some?
                          && OtherParty(Find(sessions, data.value.sessionId).value, src).Some?
    ensures r.Found? ==> data.value.sessionId == Some(r.target.key) && r.target.key in sessions
                         && OtherParty(sessions[r.target.key], src) == Some(r.target.other)
    ensures r.Missing? && data.None? ==> r.cause == DataMissing
    ensures r.Missing? && data.Some? ==>
              (r.cause == SessionMissing <==> Find(sessions, data.value.sessionId).None?)
    ensures r.Missing? && data.Some? && Find(sessions, data.value.sessionId).Some? ==> r.cause == OtherPartyMissing
  {
    match data
    case None => Missing(DataMissing)
    case Some(f) =>
      match Find(sessions, f.sessionId)
      case None => Missing(SessionMissing)
      case Some(s) =>
        match OtherParty(s, src)
        case None => Missing(OtherPartyMissing)
        case Some(c) => Found(Target(f.sessionId.value, c))
  }

  /** `offer`: store a new session under the drawn id `uuid`, offered by
      `src`, and tell `src` its id. Assigning to a key that exists keeps the
      key's place in the enumeration order. */
  function Offer(sessions: map<SessionId, Session>, order: seq<SessionId>, src: ConnId,
                 data: Option<Fields>, uuid: SessionId): (r: Transition)
    ensures data.None? ==> r == Transition(sessions, order, Fault(DataMissing))
    ensures data.Some? ==>
              && r.sessions.Keys == sessions.Keys + {uuid}
              && r.sessions[uuid] == Session(uuid, data.value.offer, src, None, None)
              && (forall k :: k in sessions && k != uuid ==> r.sessions[k] == sessions[k])
              && r.out == Done([Send(src, Reply("offer", Some(Success), SessionIdData(uuid)))])
    ensures data.Some? && uuid !in order ==> r.order == order + [uuid]
  {
    match data
    case None => Transition(sessions, order, Fault(DataMissing))
    case Some(f) =>
      Transition(sessions[uuid := Session(uuid, f.offer, src, None, None)],
                 if uuid in order then order else order + [uuid],
                 Done([Send(src, Reply("offer", Some(Success), SessionIdData(uuid)))]))
  }

  /** `get-offer`: answer `src` with the offer stored under the requested
      id, or with an error when there is none. */
  function GetOffer(sessions: map<SessionId, Session>, src: ConnId, data: Option<Fields>): (out: Outcome)
    ensures out.Fault? <==> data.None?
    ensures out.Fault? ==> out.cause == DataMissing
    ensures out.Done? ==> |out.sent| == 1 && out.sent[0].to == src && out.sent[0].envelope.kind == "get-offer"
    ensures out.Done? ==>
              (out.sent[0].envelope.status == Some(Success) <==> Find(sessions, data.value.sessionId).Some?)
    ensures out.Done? && Find(sessions, data.value.sessionId).Some? ==>
              out.sent[0].envelope == Reply("get-offer", Some(Success), OfferData(Find(sessions, data.value.sessionId).value.offer))
    ensures out.Done? && Find(sessions, data.value.sessionId).None? ==>
              out.sent[0].envelope == Reply("get-offer", Some(Error), Text(NoOfferMatched))
  {
    match data
    case None => Fault(DataMissing)
    case Some(f) =>
      match Find(sessions, f.sessionId)
      case Some(s) => Done([Send(src, Reply("get-offer", Some(Success), OfferData(s.offer)))])
      case None => Done([Send(src, Reply("get-offer", Some(Error), Text(NoOfferMatched)))])
  }

  /** The relay lists a session when its offering connection is open. */
  predicate Listed(s: Session, ready: map<ConnId, ReadyState>): (b: bool)
    ensures s.offerConnection !in ready ==> !b
    ensures s.offerConnection in ready ==> (b <==> ready[s.offerConnection].Open?)
  {
    s.offerConnection in ready && ready[s.offerConnection] == Open
  }

  /** A session without its connection objects. */
  function Project(s: Session): (e: RoomEntry)
    ensures e.id == s.id && e.offer == s.offer && e.answer == s.answer
  {
    RoomEntry(s.id, s.offer, s.answer)
  }

  /** The `filter`/`map` chain of `get-all-offers` over the records of `keys`,
      in that order. */
  function OpenOffers(keys: seq<SessionId>, sessions: map<SessionId, Session>,
                      ready: map<ConnId, ReadyState>): (r: seq<RoomEntry>)
    ensures |r| <= |keys|
    ensures forall e :: e in r ==>
              exists k :: k in keys && k in sessions && Listed(sessions[k], ready) && e == Project(sessions[k])
    ensures forall k :: k in keys && k in sessions && Listed(sessions[k], ready) ==> Project(sessions[k]) in r
    decreases |keys|
  {
    if keys == [] then []
    else
      var rest := OpenOffers(keys[1..], sessions, ready);
      if keys[0] in sessions && Listed(sessions[keys[0]], ready)
      then [Project(sessions[keys[0]])] + rest
      else rest
  }

  /** `get-all-offers`: send `src` the open sessions, never changing the registry. */
  function GetAllOffers(sessions: map<SessionId, Session>, order: seq<SessionId>, src: ConnId,
                        ready: map<ConnId, ReadyState>): (out: Outcome)
    ensures out.Done? && |out.sent| == 1 && out.sent[0].to == src
    ensures out.sent[0].envelope.kind == "get-all-offers" && out.sent[0].envelope.status == Some(Success)
    ensures out.sent[0].envelope == Reply("get-all-offers", Some(Success), RoomListData(OpenOffers(order, sessions, ready)))
  {
    Done([Send(src, Reply("get-all-offers", Some(Success), RoomListData(OpenOffers(order, sessions, ready))))])
  }

  /** `answer`: make `src` the answering connection of the requested session,
      whoever held that place before, pass the answer to the offering
      connection and confirm to `src`. */
  function Answer(sessions: map<SessionId, Session>, order: seq<SessionId>, src: ConnId,
                  data: Option<Fields>): (r: Transition)
    ensures r.order == order && r.sessions.Keys == sessions.Keys
    ensures r.out.Fault? <==> data.None? || Find(sessions, data.value.sessionId).None?
    ensures r.out.Fault? ==> r.sessions == sessions
    ensures data.None? ==> r.out == Fault(DataMissing)
    ensures data.Some? && Find(sessions, data.value.sessionId).None? ==> r.out == Fault(SessionMissing)
    ensures r.out.Done? ==>
              var k := data.value.sessionId.value;
              && r.sessions[k] == sessions[k].(answerConnection := Some(src))
              && (forall j :: j in sessions && j != k ==> r.sessions[j] == sessions[j])
              && r.out.sent == [Send(sessions[k].offerConnection, Reply("offer-accepted", None, AnswerData(data.value.answer))),
                                Send(src, Reply("answer", Some(Success), NoData))]
  {
    match data
    case None => Transition(sessions, order, Fault(DataMissing))
    case Some(f) =>
      match Find(sessions, f.sessionId)
      case None => Transition(sessions, order, Fault(SessionMissing))
      case Some(s) =>
        Transition(sessions[f.sessionId.value := s.(answerConnection := Some(src))], order,
                   Done([Send(s.offerConnection, Reply("offer-accepted", None, AnswerData(f.answer))),
                         Send(src, Reply("answer", Some(Success), NoData))]))
  }

  /** `leave`: tell the other party of the session to leave; the registry is
      not touched. */
  function Leave(sessions: map<SessionId, Session>, src: ConnId, data: Option<Fields>): (out: Outcome)
    ensures out.Fault? <==> Locate(sessions, src, data).Missing?
    ensures out.Fault? ==> out.cause == Locate(sessions, src, data).cause
    ensures out.Done? ==> out.sent == [Send(Locate(sessions, src, data).target.other, Reply("leave-other", None, NoData))]
  {
    match Locate(sessions, src, data)
    case Missing(c) => Fault(c)
    case Found(t) => Done([Send(t.other, Reply("leave-other", None, NoData))])
  }

  /** The key order with `k` taken out, as `delete` leaves the enumeration. */
  function Without(order: seq<SessionId>, k: SessionId): (r: seq<SessionId>)
    ensures forall x :: x in r <==> x in order && x != k
    ensures Distinct(order) ==> Distinct(r)
  {
    if order == [] then []
    else
      var rest := Without(order[1..], k);
      assert forall x :: x in order[1..] ==> x in order;
      if order[0] == k then rest
      else
        assert Distinct(order) ==> order[0] !in order[1..];
        [order[0]] + rest
  }

  /** Deleting a key keeps the other keys in their order: an absent key
      changes nothing, and a present one is cut out at its position. */
  lemma {:induction false} WithoutKeepsOrder(order: seq<SessionId>, k: SessionId)
    ensures k !in order ==> Without(order, k) == order
    ensures Distinct(order) && k in order ==>
              exists i :: 0 <= i < |order| && order[i] == k && Without(order, k) == order[..i] + order[i + 1..]
  {
    if order != [] {
      var rest := order[1..];
      WithoutKeepsOrder(rest, k);
      assert order == [order[0]] + rest;
      if Distinct(order) {
        assert Distinct(rest);
        assert order[0] !in rest;
      }
      if order[0] == k {
        if Distinct(order) {
          assert Without(order, k) == order[..0] + order[1..];
        }
      } else if Distinct(order) && k in order {
        assert k in rest;
        var j :| 0 <= j < |rest| && rest[j] == k && Without(rest, k) == rest[..j] + rest[j + 1..];
        assert order[j + 1] == k;
        assert Without(order, k) == order[..j + 1] + order[j + 2..];
      }
    }
  }

  /** `leave-other`: confirm the leave to both parties, then delete the session. */
  function LeaveOther(sessions: map<SessionId, Session>, order: seq<SessionId>, src: ConnId,
                      data: Option<Fields>): (r: Transition)
    ensures r.out.Fault? <==> Locate(sessions, src, data).Missing?
    ensures r.out.Fault? ==> r.sessions == sessions && r.order == order
                             && r.out.cause == Locate(sessions, src, data).cause
    ensures r.out.Done? ==>
              var t := Locate(sessions, src, data).target;
              && r.sessions.Keys == sessions.Keys - {t.key}
              && (forall j :: j in r.sessions ==> r.sessions[j] == sessions[j])
              && r.order == Without(order, t.key)
              && r.out.sent == [Send(t.other, Reply("leave", Some(Success), NoData)),
                                Send(src, Reply("leave-other", Some(Success), NoData))]
  {
    match Locate(sessions, src, data)
    case Missing(c) => Transition(sessions, order, Fault(c))
    case Found(t) =>
      Transition(sessions - {t.key}, Without(order, t.key),
                 Done([Send(t.other, Reply("leave", Some(Success), NoData)),
                       Send(src, Reply("leave-other", Some(Success), NoData))]))
  }

  /** `send-icecandidate`: forward the candidates to the other party; the
      registry is not touched. */
  function SendIceCandidate(sessions: map<SessionId, Session>, src: ConnId, data: Option<Fields>): (out: Outcome)
    ensures out.Fault? <==> Locate(sessions, src, data).Missing?
    ensures out.Fault? ==> out.cause == Locate(sessions, src, data).cause
    ensures out.Done? ==>
              out.sent == [Send(Locate(sessions, src, data).target.other,
                                Reply("receieve-icecandidate", None, IceData(data.value.iceCandidates)))]
  {
    match Locate(sessions, src, data)
    case Missing(c) => Fault(c)
    case Found(t) => Done([Send(t.other, Reply("receieve-icecandidate", None, IceData(data.value.iceCandidates)))])
  }

  /** Any other `type`: an error frame back to `src`. */
  function Default(src: ConnId): (out: Outcome)
    ensures out.Done? && |out.sent| == 1 && out.sent[0].to == src
    ensures out.sent[0].envelope.status == Some(Error) && out.sent[0].envelope.message == Some(InvalidCommand)
    ensures out.sent[0].envelope.kind == "default" && out.sent[0].envelope.data == NoData
  {
    Done([Send(src, Envelope("default", Some(Error), NoData, Some(InvalidCommand)))])
  }

  predicate IsCommand(kind: string)
  {
    kind in {"offer", "get-offer", "get-all-offers", "answer", "leave", "leave-other", "send-icecandidate"}
  }

  /** The `switch (type)` of the message handler. `uuid` is what `uuidv4()`
      returns for this frame; only `offer` uses it. */
  function Route(sessions: map<SessionId, Session>, order: seq<SessionId>, src: ConnId, req: Request,
                 ready: map<ConnId, ReadyState>, uuid: SessionId): (r: Transition)
    ensures r.out.Fault? ==> r.sessions == sessions && r.order == order
    ensures r.out.Fault? ==> IsCommand(req.kind) && req.kind != "get-all-offers"
    ensures req.kind !in {"offer", "answer", "leave-other"} ==> r.sessions == sessions && r.order == order
    ensures !IsCommand(req.kind) ==> r.out == Default(src)
    ensures r.sessions.Keys <= sessions.Keys + {uuid}
  {
    match req.kind
    case "offer" => Offer(sessions, order, src, req.data, uuid)
    case "get-offer" => Transition(sessions, order, GetOffer(sessions, src, req.data))
    case "get-all-offers" => Transition(sessions, order, GetAllOffers(sessions, order, src, ready))
    case "answer" => Answer(sessions, order, src, req.data)
    case "leave" => Transition(sessions, order, Leave(sessions, src, req.data))
    case "leave-other" => LeaveOther(sessions, order, src, req.data)
    case "send-icecandidate" => Transition(sessions, order, SendIceCandidate(sessions, src, req.data))
    case _ => Transition(sessions, order, Default(src))
  }

  /** Some key is always free, so drawing a fresh id never gets stuck. */
  lemma FreshIdExists(keys: set<SessionId>)
    ensures exists id: SessionId :: id !in keys
  {
    var n := Bound(keys);
    assert n !in keys;
  }

  /** A number above every key. */
  ghost function Bound(keys: set<SessionId>): (n: SessionId)
    ensures forall k :: k in keys ==> k < n
    decreases |keys|
  {
    if keys == {} then 0
    else
      var x :| x in keys;
      var m := Bound(keys - {x});
      assert forall k :: k in keys ==> k == x || k in keys - {x};
      if x < m then m else x + 1
  }

  /** An offer under a fresh id keeps the registry invariant. */
  lemma OfferKeepsInv(sessions: map<SessionId, Session>, order: seq<SessionId>, src: ConnId,
                      data: Option<Fields>, uuid: SessionId)
    requires Inv(sessions, order) && uuid !in sessions
    ensures Inv(Offer(sessions, order, src, data, uuid).sessions, Offer(sessions, order, src, data, uuid).order)
  {
  }

  /** Deleting a session keeps the registry invariant. */
  lemma LeaveOtherKeepsInv(sessions: map<SessionId, Session>, order: seq<SessionId>, src: ConnId,
                           data: Option<Fields>)
    requires Inv(sessions, order)
    ensures Inv(LeaveOther(sessions, order, src, data).sessions, LeaveOther(sessions, order, src, data).order)
  {
  }

  /** Every step of the router keeps the registry invariant, provided the
      drawn id is fresh. */
  lemma RouteKeepsInv(sessions: map<SessionId, Session>, order: seq<SessionId>, src: ConnId,
                      req: Request, ready: map<ConnId, ReadyState>, uuid: SessionId)
    requires Inv(sessions, order) && uuid !in sessions
    ensures Inv(Route(sessions, order, src, req, ready, uuid).sessions, Route(sessions, order, src, req, ready, uuid).order)
  {
  }

  /** The relay's process-wide state: `rtcOfferSignalSession` and the order
      of its keys. */
  class Registry {
    var sessions: map<SessionId, Session>
    var order: seq<SessionId>

    ghost predicate Valid()
      reads this
    {
      Inv(sessions, order)
    }

    constructor ()
      ensures Valid() && sessions == map[] && order == []
    {
      sessions := map[];
      order := [];
    }

    /** One `message` event of one connection, handled to completion. `uuid`
        is the id drawn for it: fresh, and used only by `offer`. */
    method Handle(src: ConnId, req: Request, ready: map<ConnId, ReadyState>) returns (out: Outcome, ghost uuid: SessionId)
      requires Valid()
      modifies this
      ensures Valid()
      ensures uuid !in old(sessions)
      ensures Transition(sessions, order, out) == Route(old(sessions), old(order), src, req, ready, uuid)
    {
      FreshIdExists(sessions.Keys);
      match req.kind {
      case "offer" =>
        var id :| id !in sessions;
        uuid := id;
        match req.data {
          case None =>
            out := Fault(DataMissing);
          case Some(f) =>
            assert id !in order;
            sessions := sessions[id := Session(id, f.offer, src, None, None)];
            order := order + [id];
            out := Done([Send(src, Reply("offer", Some(Success), SessionIdData(id)))]);
        }
      case "get-offer" =>
        uuid :| uuid !in sessions;
        out := GetOffer(sessions, src, req.data);
      case "get-all-offers" =>
        uuid :| uuid !in sessions;
        out := GetAllOffers(sessions, order, src, ready);
      case "answer" =>
        uuid :| uuid !in sessions;
        match req.data {
          case None =>
            out := Fault(DataMissing);
          case Some(f) =>
            match Find(sessions, f.sessionId) {
              case None =>
                out := Fault(SessionMissing);
              case Some(s) =>
                sessions := sessions[f.sessionId.value := s.(answerConnection := Some(src))];
                out := Done([Send(s.offerConnection, Reply("offer-accepted", None, AnswerData(f.answer))),
                             Send(src, Reply("answer", Some(Success), NoData))]);
            }
        }
      case "leave" =>
        uuid :| uuid !in sessions;
        out := Leave(sessions, src, req.data);
      case "leave-other" =>
        uuid :| uuid !in sessions;
        match Locate(sessions, src, req.data) {
          case Missing(c) =>
            out := Fault(c);
          case Found(t) =>
            out := Done([Send(t.other, Reply("leave", Some(Success), NoData)),
                         Send(src, Reply("leave-other", Some(Success), NoData))]);
            sessions := sessions - {t.key};
            order := Without(order, t.key);
        }
      case "send-icecandidate" =>
        uuid :| uuid !in sessions;
        out := SendIceCandidate(sessions, src, req.data);
      case _ =>
        uuid :| uuid !in sessions;
        out := Default(src);
      }
      RouteKeepsInv(old(sessions), old(order), src, req, ready, uuid);
    }
  }
}
