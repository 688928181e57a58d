/** Properties of the signaling relay that relate several steps: what each
    step does to the `get-all-offers` listing, what `get-offer` sees after
    `offer` and `leave-other`, how `answer` pairs the two parties, and the
    message sequences of a whole negotiation run against a fresh registry. */
module RelayProperties {
  import opened Protocol
  import opened Relay

  /** The listing of a key order extended by one key is the old listing
      followed by that key's entry, when it is listed. */
  lemma {:induction false} OpenOffersSnoc(keys: seq<SessionId>, k: SessionId, sessions: map<SessionId, Session>,
                                          ready: map<ConnId, ReadyState>)
    ensures OpenOffers(keys + [k], sessions, ready)
         == OpenOffers(keys, sessions, ready)
            + (if k in sessions && Listed(sessions[k], ready) then [Project(sessions[k])] else [])
    decreases |keys|
  {
    if keys != [] {
      assert (keys + [k])[1..] == keys[1..] + [k];
      OpenOffersSnoc(keys[1..], k, sessions, ready);
    }
  }

  /** The listing only depends, key by key, on whether the record is there,
      whether it is listed and what it projects to. */
  lemma {:induction false} OpenOffersCongruent(keys: seq<SessionId>, s1: map<SessionId, Session>,
                                               s2: map<SessionId, Session>, ready: map<ConnId, ReadyState>)
    requires forall k :: k in keys ==> (k in s1 <==> k in s2)
    requires forall k :: k in keys && k in s1 && k in s2 ==>
               Listed(s1[k], ready) == Listed(s2[k], ready) && Project(s1[k]) == Project(s2[k])
    ensures OpenOffers(keys, s1, ready) == OpenOffers(keys, s2, ready)
    decreases |keys|
  {
    if keys != [] {
      assert forall k :: k in keys[1..] ==> k in keys;
      OpenOffersCongruent(keys[1..], s1, s2, ready);
    }
  }

  /** `get-all-offers` lists exactly the sessions whose offering connection is
      open, each with its own id and offer and never an answer. */
  lemma ListingExact(sessions: map<SessionId, Session>, order: seq<SessionId>, ready: map<ConnId, ReadyState>)
    requires Inv(sessions, order)
    ensures forall e :: e in OpenOffers(order, sessions, ready) ==>
              && e.id in sessions && Listed(sessions[e.id], ready)
              && e.offer == sessions[e.id].offer && e.answer.None?
    ensures forall k :: k in sessions && Listed(sessions[k], ready) ==>
              RoomEntry(k, sessions[k].offer, None) in OpenOffers(order, sessions, ready)
  {
  }

  /** `offer` appends the new session to the listing when its connection is
      open, and leaves the listing as it was otherwise. */
  lemma OfferListing(sessions: map<SessionId, Session>, order: seq<SessionId>, src: ConnId, f: Fields,
                     uuid: SessionId, ready: map<ConnId, ReadyState>)
    requires Inv(sessions, order) && uuid !in sessions
    ensures var r := Offer(sessions, order, src, Some(f), uuid);
            OpenOffers(r.order, r.sessions, ready)
            == OpenOffers(order, sessions, ready)
               + (if src in ready && ready[src] == Open then [RoomEntry(uuid, f.offer, None)] else [])
  {
    var r := Offer(sessions, order, src, Some(f), uuid);
    assert uuid !in order;
    OpenOffersSnoc(order, uuid, r.sessions, ready);
    OpenOffersCongruent(order, r.sessions, sessions, ready);
  }

  /** `answer` does not change the listing: the joiner is not projected. */
  lemma AnswerListing(sessions: map<SessionId, Session>, order: seq<SessionId>, src: ConnId,
                      data: Option<Fields>, ready: map<ConnId, ReadyState>)
    ensures var r := Answer(sessions, order, src, data);
            OpenOffers(r.order, r.sessions, ready) == OpenOffers(order, sessions, ready)
  {
    var r := Answer(sessions, order, src, data);
    OpenOffersCongruent(order, r.sessions, sessions, ready);
  }

  /** A listing with the entries of id `k` taken out, the rest in order. */
  function DropId(list: seq<RoomEntry>, k: SessionId): (r: seq<RoomEntry>)
    ensures forall e :: e in r <==> e in list && e.id != k
    ensures |r| <= |list|
  {
    if list == [] then []
    else
      assert forall e :: e in list[1..] ==> e in list;
      if list[0].id == k then DropId(list[1..], k) else [list[0]] + DropId(list[1..], k)
  }

  /** Listing the key order without `k` over the registry without `k` is
      the old listing with `k`'s entry cut out, everything else in place. */
  lemma {:induction false} OpenOffersWithout(keys: seq<SessionId>, sessions: map<SessionId, Session>, k: SessionId,
                                             ready: map<ConnId, ReadyState>)
    requires forall j :: j in keys && j in sessions ==> sessions[j].id == j
    ensures OpenOffers(Without(keys, k), sessions - {k}, ready) == DropId(OpenOffers(keys, sessions, ready), k)
    decreases |keys|
  {
    if keys != [] {
      assert forall j :: j in keys[1..] ==> j in keys;
      OpenOffersWithout(keys[1..], sessions, k, ready);
      if keys[0] != k {
        assert Without(keys, k)[1..] == Without(keys[1..], k);
      }
    }
  }

  /** After `leave-other` the listing is the old one, in the old order,
      without the entry of the deleted session. */
  lemma LeaveOtherListing(sessions: map<SessionId, Session>, order: seq<SessionId>, src: ConnId,
                          data: Option<Fields>, ready: map<ConnId, ReadyState>)
    requires Inv(sessions, order)
    requires Locate(sessions, src, data).Found?
    ensures var k := Locate(sessions, src, data).target.key;
            var r := LeaveOther(sessions, order, src, data);
            OpenOffers(r.order, r.sessions, ready) == DropId(OpenOffers(order, sessions, ready), k)
  {
    OpenOffersWithout(order, sessions, Locate(sessions, src, data).target.key, ready);
  }

  /** Round trip: `get-offer` on the id `offer` returned yields that offer. */
  lemma OfferThenGetOffer(sessions: map<SessionId, Session>, order: seq<SessionId>, a: ConnId, b: ConnId,
                          f: Fields, g: Fields, uuid: SessionId)
    requires g.sessionId == Some(uuid)
    ensures var r := Offer(sessions, order, a, Some(f), uuid);
            GetOffer(r.sessions, b, Some(g)) == Done([Send(b, Reply("get-offer", Some(Success), OfferData(f.offer)))])
  {
  }

  /** After `leave-other` deleted a session, `get-offer` on its id fails, and
      so do a second `leave-other` and any `answer` for it. */
  lemma LeaveOtherThenLookups(sessions: map<SessionId, Session>, order: seq<SessionId>, src: ConnId, c: ConnId,
                              data: Option<Fields>)
    requires Locate(sessions, src, data).Found?
    ensures var r := LeaveOther(sessions, order, src, data);
            && GetOffer(r.sessions, c, data) == Done([Send(c, Reply("get-offer", Some(Error), Text(NoOfferMatched)))])
            && LeaveOther(r.sessions, r.order, c, data).out == Fault(SessionMissing)
            && Answer(r.sessions, r.order, c, data).out == Fault(SessionMissing)
  {
  }

  /** Once `b` has answered a session offered by a different connection `a`,
      the two resolve to each other, and any third connection resolves to `a`. */
  lemma AnswerPairsParties(sessions: map<SessionId, Session>, order: seq<SessionId>, b: ConnId, c: ConnId,
                           f: Fields)
    requires f.sessionId.Some? && f.sessionId.value in sessions
    requires b != sessions[f.sessionId.value].offerConnection
    ensures var a := sessions[f.sessionId.value].offerConnection;
            var s := Answer(sessions, order, b, Some(f)).sessions[f.sessionId.value];
            && OtherParty(s, a) == Some(b)
            && OtherParty(s, b) == Some(a)
            && (c != a ==> OtherParty(s, c) == Some(a))
  {
  }

  /** A second `answer` on a joined session replaces the joiner without any
      check, so the first joiner is no longer the other party of the offerer. */
  lemma AnswerOverwritesJoiner(sessions: map<SessionId, Session>, order: seq<SessionId>, b1: ConnId, b2: ConnId,
                               f1: Fields, f2: Fields)
    requires f1.sessionId.Some? && f1.sessionId == f2.sessionId && f1.sessionId.value in sessions
    ensures var r1 := Answer(sessions, order, b1, Some(f1));
            var r2 := Answer(r1.sessions, r1.order, b2, Some(f2));
            && r2.out.Done?
            && r2.sessions[f1.sessionId.value].answerConnection == Some(b2)
            && OtherParty(r2.sessions[f1.sessionId.value], sessions[f1.sessionId.value].offerConnection) == Some(b2)
  {
  }

  /** The basic negotiation: `a` offers, `b` fetches
      the offer and answers; `a` gets the answer and `b` the confirmation. */
  method OfferFetchAnswer(a: ConnId, b: ConnId, sdpA: Blob, sdpB: Blob, ready: map<ConnId, ReadyState>)
    returns (id: SessionId, o1: Outcome, o2: Outcome, o3: Outcome)
    ensures o1 == Done([Send(a, Reply("offer", Some(Success), SessionIdData(id)))])
    ensures o2 == Done([Send(b, Reply("get-offer", Some(Success), OfferData(Some(sdpA))))])
    ensures o3 == Done([Send(a, Reply("offer-accepted", None, AnswerData(Some(sdpB)))),
                        Send(b, Reply("answer", Some(Success), NoData))])
  {
    var reg := new Registry();
    ghost var u;
    o1, u := reg.Handle(a, Request("offer", Some(Fields(None, Some(sdpA), None, None))), ready);
    id := o1.sent[0].envelope.data.sessionId;
    o2, u := reg.Handle(b, Request("get-offer", Some(Fields(Some(id), None, None, None))), ready);
    o3, u := reg.Handle(b, Request("answer", Some(Fields(Some(id), None, Some(sdpB), None))), ready);
  }

  /** `offer`, `answer`, `leave` from the offerer, `leave-other` from the
      joiner: each side gets exactly its leave frames, and the session is
      gone afterwards. */
  method Teardown(a: ConnId, b: ConnId, sdpA: Blob, sdpB: Blob, ready: map<ConnId, ReadyState>)
    returns (o3: Outcome, o4: Outcome, o5: Outcome)
    requires a != b
    ensures o3 == Done([Send(b, Reply("leave-other", None, NoData))])
    ensures o4 == Done([Send(a, Reply("leave", Some(Success), NoData)),
                        Send(b, Reply("leave-other", Some(Success), NoData))])
    ensures o5 == Done([Send(a, Reply("get-offer", Some(Error), Text(NoOfferMatched)))])
  {
    var reg := new Registry();
    var o1, o2;
    ghost var u;
    o1, u := reg.Handle(a, Request("offer", Some(Fields(None, Some(sdpA), None, None))), ready);
    var id := o1.sent[0].envelope.data.sessionId;
    var key := Some(Fields(Some(id), None, None, None));
    o2, u := reg.Handle(b, Request("answer", Some(Fields(Some(id), None, Some(sdpB), None))), ready);
    o3, u := reg.Handle(a, Request("leave", key), ready);
    o4, u := reg.Handle(b, Request("leave-other", key), ready);
    o5, u := reg.Handle(a, Request("get-offer", key), ready);
  }

  /** ICE candidates sent by the offerer before anyone answered: the relay
      sends to an absent answering connection and throws. A non-participant
      sending them reaches the offerer. */
  method IceBeforeAnswer(a: ConnId, c: ConnId, sdpA: Blob, ice: Blob, ready: map<ConnId, ReadyState>)
    returns (o2: Outcome, o3: Outcome)
    requires a != c
    ensures o2 == Fault(OtherPartyMissing)
    ensures o3 == Done([Send(a, Reply("receieve-icecandidate", None, IceData(Some(ice))))])
  {
    var reg := new Registry();
    var o1;
    ghost var u;
    o1, u := reg.Handle(a, Request("offer", Some(Fields(None, Some(sdpA), None, None))), ready);
    var id := o1.sent[0].envelope.data.sessionId;
    var msg := Request("send-icecandidate", Some(Fields(Some(id), None, None, Some(ice))));
    o2, u := reg.Handle(a, msg, ready);
    o3, u := reg.Handle(c, msg, ready);
  }

  /** The listing of a joined session whose offerer is open still has no
      answer in it. */
  method ListAfterAnswer(a: ConnId, b: ConnId, sdpA: Blob, sdpB: Blob, ready: map<ConnId, ReadyState>)
    returns (id: SessionId, o3: Outcome)
    requires a in ready && ready[a] == Open
    ensures o3 == Done([Send(b, Reply("get-all-offers", Some(Success),
                                      RoomListData([RoomEntry(id, Some(sdpA), None)])))])
  {
    var reg := new Registry();
    var o1, o2;
    ghost var u;
    o1, u := reg.Handle(a, Request("offer", Some(Fields(None, Some(sdpA), None, None))), ready);
    id := o1.sent[0].envelope.data.sessionId;
    assert reg.order == [id];
    o2, u := reg.Handle(b, Request("answer", Some(Fields(Some(id), None, Some(sdpB), None))), ready);
    assert reg.order == [id] && reg.sessions[id] == Session(id, Some(sdpA), a, Some(b), None);
    assert OpenOffers([id], reg.sessions, ready) == [RoomEntry(id, Some(sdpA), None)] + OpenOffers([], reg.sessions, ready);
    assert OpenOffers([], reg.sessions, ready) == [];
    ghost var s2, ord2 := reg.sessions, reg.order;
    o3, u := reg.Handle(b, Request("get-all-offers", None), ready);
    assert o3 == GetAllOffers(s2, ord2, b, ready);
    assert OpenOffers(ord2, s2, ready) == [RoomEntry(id, Some(sdpA), None)];
  }

  /** A run of `offer` frames, each from its own connection, against any
      reachable registry hands out pairwise distinct ids that were not keys
      before, each naming the session its frame created. */
  method OfferRun(reg: Registry, frames: seq<(ConnId, Blob)>, ready: map<ConnId, ReadyState>)
    returns (ids: seq<SessionId>)
    requires reg.Valid()
    modifies reg
    ensures reg.Valid()
    ensures |ids| == |frames| && Distinct(ids)
    ensures forall i :: 0 <= i < |ids| ==>
              && ids[i] !in old(reg.sessions) && ids[i] in reg.sessions
              && reg.sessions[ids[i]] == Session(ids[i], Some(frames[i].1), frames[i].0, None, None)
  {
    ids := [];
    for i := 0 to |frames|
      invariant reg.Valid() && |ids| == i && Distinct(ids)
      invariant forall j :: 0 <= j < i ==>
                  && ids[j] !in old(reg.sessions) && ids[j] in reg.sessions
                  && reg.sessions[ids[j]] == Session(ids[j], Some(frames[j].1), frames[j].0, None, None)
      invariant old(reg.sessions).Keys <= reg.sessions.Keys
    {
      var out;
      ghost var u;
      ghost var before := reg.sessions;
      out, u := reg.Handle(frames[i].0, Request("offer", Some(Fields(None, Some(frames[i].1), None, None))), ready);
      var id := out.sent[0].envelope.data.sessionId;
      forall j | 0 <= j < |ids| ensures ids[j] != id {
        assert ids[j] in before;
      }
      ids := ids + [id];
    }
  }
}
