/** Who has paid for what, in every run with E2E on. A charge is told by the message that paid for it, and which
    charges are out can be read off the states of the requests, whatever is retransmitted or delivered twice. */
module NicCharges {
  import opened Wire
  import opened Queues
  import opened FlowControl
  import opened Nic
  import opened NicRefs
  import opened NicParking
  import opened NicRefRuns
  import opened NicTypes
  import opened NicLedger
  import opened NicFrames

  // ---------------------------------------------------------------- what is charged, and for whom

  function RecordIn(reqs: Reqs, ended: Reqs, r: ReqId): Req
    requires r in reqs || r in ended
  {
    if r in reqs then reqs[r] else ended[r]
  }

  /** A charge was paid by a message that has left, and has the key of its request. */
  ghost predicate KeyFits(reqs: Reqs, ended: Reqs, sent: set<MsgId>, open: Ledger, id: ChargeId)
    requires id in open
  {
    && id.payer in sent && (id.req in reqs || id.req in ended)
    && open[id] == ChargeOf(RecordIn(reqs, ended, id.req).command, id)
  }

  ghost predicate KeysFit(reqs: Reqs, ended: Reqs, sent: set<MsgId>, open: Ledger) {
    forall id {:trigger id in open} :: id in open ==> KeyFits(reqs, ended, sent, open, id)
  }

  /** The credit of a request is out from when its first message leaves until it is answered. */
  predicate Booked(sent: set<MsgId>, open: Ledger, r: ReqId, q: Req) {
    && (ChargeId(r, r) in open <==> r in sent && Rank(q.phase) <= Rank(Received))
    && (r !in sent ==> q.phase.Created?)
  }

  /** The same for a live request and for one that is deleted, whose first message has left. */
  ghost predicate BookedAt(reqs: Reqs, ended: Reqs, sent: set<MsgId>, open: Ledger, r: ReqId) {
    && (r in reqs ==> Booked(sent, open, r, reqs[r]))
    && (r in ended ==> r !in reqs && r in sent && Booked(sent, open, r, ended[r]))
  }

  ghost predicate AllBooked(reqs: Reqs, ended: Reqs, sent: set<MsgId>, open: Ledger) {
    forall r {:trigger BookedAt(reqs, ended, sent, open, r)} :: BookedAt(reqs, ended, sent, open, r)
  }

  /** Messages other than E2E ACKs pay when they leave for the first time, and their copies never; the first message
      of a request has its number, and leaves before any other. */
  predicate Pays(msg: Msg, m: MsgId, sent: set<MsgId>) {
    && (IsRequest(msg.typ) <==> msg.origin == msg.req) && (m == msg.req ==> IsRequest(msg.typ))
    && (m != msg.req ==> msg.req in sent) && (m != msg.origin ==> msg.origin in sent)
    && (m !in sent && !msg.typ.E2eAck? ==> (msg.retry == 0 <==> m == msg.origin))
  }

  /** The credit of a reply is out from when it leaves until its request is finished. */
  predicate ReplyOut(msg: Msg, sent: set<MsgId>, open: Ledger, q: Req) {
    IsReply(msg.typ) && msg.origin in sent && !q.phase.Finished? ==> ChargeId(msg.req, msg.origin) in open
  }

  /** An E2E ACK answers a message that was handled: a reply makes its request ANSWERED. */
  predicate AnswersHandled(msgs: Msgs, msg: Msg, sent: set<MsgId>, q: Req) {
    msg.typ.E2eAck? && msg.answers.Some? ==>
      && msg.answers.value in sent
      && (msg.answers.value in msgs && IsReply(msgs[msg.answers.value].typ) ==> Rank(q.phase) >= Rank(Answered))
  }

  ghost predicate Placed(msgs: Msgs, m: MsgId, sent: set<MsgId>, open: Ledger, q: Req)
    requires m in msgs
  {
    Pays(msgs[m], m, sent) && ReplyOut(msgs[m], sent, open, q) && AnswersHandled(msgs, msgs[m], sent, q)
  }

  ghost predicate AllPlaced(msgs: Msgs, reqs: Reqs, sent: set<MsgId>, open: Ledger) {
    forall m {:trigger Placed(msgs, m, sent, open, reqs[msgs[m].req])} ::
      m in msgs && msgs[m].req in reqs ==> Placed(msgs, m, sent, open, reqs[msgs[m].req])
  }

  ghost predicate FirstsFit(msgs: Msgs, reqs: Reqs) {
    forall r {:trigger r in reqs} :: r in reqs && r in msgs ==> msgs[r].req == r
  }

  ghost predicate Names(s: State) {
    && KeysFit(s.reqs, s.ended, s.sent, s.open) && AllBooked(s.reqs, s.ended, s.sent, s.open)
    && AllPlaced(s.msgs, s.reqs, s.sent, s.open) && FirstsFit(s.msgs, s.reqs) && WatchedWereSent(s.at, s.sent)
  }

  ghost predicate NameSound(c: Config, s: State) {
    TypeSound(c, s) && (s.fault.NoFault? ==> Names(s))
  }

  lemma PlacedOf(s: State, m: MsgId)
    requires Names(s) && Live(s, m)
    ensures Placed(s.msgs, m, s.sent, s.open, ReqOf(s, m))
  {
    hide KeysFit, AllBooked, Placed;
  }

  lemma BookedOf(s: State, r: ReqId)
    requires Names(s)
    ensures BookedAt(s.reqs, s.ended, s.sent, s.open, r)
  {
    hide KeysFit, AllPlaced, BookedAt;
  }

  // ---------------------------------------------------------------- frames

  /** A message keeps its place while its request goes on and its credit stays out. */
  lemma PlacedKept(msgs: Msgs, m: MsgId, sent: set<MsgId>, open: Ledger, q: Req,
                   msgs': Msgs, sent': set<MsgId>, open': Ledger, q': Req)
    requires m in msgs && Placed(msgs, m, sent, open, q) && SameTale(msgs, msgs', sent, m)
    requires sent <= sent' && Rank(q'.phase) >= Rank(q.phase)
    requires IsReply(msgs[m].typ) && msgs[m].origin in sent' && !q'.phase.Finished? ==>
      ChargeId(msgs[m].req, msgs[m].origin) in open' || (msgs[m].origin in sent && open' == open)
    requires msgs[m].answers.Some? && msgs[m].answers.value in sent && msgs[m].answers.value in msgs' ==>
      msgs[m].answers.value in msgs && msgs'[msgs[m].answers.value].typ == msgs[msgs[m].answers.value].typ
    ensures Placed(msgs', m, sent', open', q')
  {
  }

  /** A step that moves no credit: old messages keep their tale and old requests their story, and what is new has
      its place. */
  ghost predicate CalmMessages(s: State, t: State) {
    forall m {:trigger t.msgs[m]} :: m in t.msgs ==>
      if m in s.msgs then SameTale(s.msgs, t.msgs, s.sent, m)
      else m !in s.sent && m !in s.reqs && t.msgs[m].req in t.reqs
           && Placed(t.msgs, m, t.sent, t.open, t.reqs[t.msgs[m].req])
  }

  ghost predicate CalmRequests(s: State, t: State) {
    && (forall r {:trigger t.reqs[r]} :: r in t.reqs ==>
          if r in s.reqs then SameStory(s.reqs[r], t.reqs[r])
          else r !in s.sent && t.reqs[r].phase.Created? && (r in t.msgs ==> t.msgs[r].req == r))
    && (forall r {:trigger t.ended[r]} :: r in t.ended ==>
          if r in s.ended then t.ended[r] == s.ended[r]
          else r in s.reqs && r !in t.reqs && r in s.sent && SameStory(s.reqs[r], t.ended[r]))
    && (forall r {:trigger r in s.reqs} :: r in s.reqs ==> r in t.reqs || r in t.ended)
    && s.ended.Keys <= t.ended.Keys
  }

  ghost predicate Calm(s: State, t: State) {
    t.sent == s.sent && t.open == s.open && CalmMessages(s, t) && CalmRequests(s, t)
  }

  lemma CalmBooked(s: State, t: State)
    requires KeysFit(s.reqs, s.ended, s.sent, s.open) && AllBooked(s.reqs, s.ended, s.sent, s.open)
    requires t.sent == s.sent && t.open == s.open && CalmRequests(s, t)
    ensures KeysFit(t.reqs, t.ended, t.sent, t.open) && AllBooked(t.reqs, t.ended, t.sent, t.open)
  {
    forall r ensures BookedAt(t.reqs, t.ended, t.sent, t.open, r) {
      assert BookedAt(s.reqs, s.ended, s.sent, s.open, r);
      if ChargeId(r, r) in s.open { assert KeyFits(s.reqs, s.ended, s.sent, s.open, ChargeId(r, r)); }
    }
    forall id | id in t.open ensures KeyFits(t.reqs, t.ended, t.sent, t.open, id) {
      assert KeyFits(s.reqs, s.ended, s.sent, s.open, id);
      assert BookedAt(s.reqs, s.ended, s.sent, s.open, id.req) && BookedAt(t.reqs, t.ended, t.sent, t.open, id.req);
    }
  }

  lemma CalmPlaced(s: State, t: State)
    requires AllPlaced(s.msgs, s.reqs, s.sent, s.open) && FirstsFit(s.msgs, s.reqs) && Calm(s, t)
    requires forall m {:trigger s.msgs[m]} :: m in s.msgs ==> s.msgs[m].req in s.reqs
    ensures AllPlaced(t.msgs, t.reqs, t.sent, t.open) && FirstsFit(t.msgs, t.reqs)
  {
    hide Placed;
    forall m | m in t.msgs && t.msgs[m].req in t.reqs
      ensures Placed(t.msgs, m, t.sent, t.open, t.reqs[t.msgs[m].req])
    {
      if m in s.msgs {
        assert Placed(s.msgs, m, s.sent, s.open, s.reqs[s.msgs[m].req]);
        if s.msgs[m].answers.Some? && s.msgs[m].answers.value in t.msgs {
          assert s.msgs[m].answers.value in s.msgs ==> SameTale(s.msgs, t.msgs, s.sent, s.msgs[m].answers.value);
        }
        PlacedKept(s.msgs, m, s.sent, s.open, s.reqs[s.msgs[m].req],
                   t.msgs, t.sent, t.open, t.reqs[t.msgs[m].req]);
      }
    }
  }

  lemma CalmNames(s: State, t: State)
    requires Names(s) && Calm(s, t) && Owned(s.msgs, s.reqs, s.next) && WatchedWereSent(t.at, t.sent)
    ensures Names(t)
  {
    hide KeysFit, AllBooked, AllPlaced, FirstsFit, CalmMessages, CalmRequests;
    CalmBooked(s, t);
    CalmPlaced(s, t);
  }

  /** A request is not deleted while its first message waits. */
  lemma DeletedLeft(u: State, t: State, r: ReqId)
    requires Parking(u) && FirstsFit(u.msgs, u.reqs) && Shrunk(u.msgs, t.msgs, u.reqs, t.reqs, u.at) && RefInv(t)
    requires r in u.reqs && r < u.next
    ensures r in u.sent || r in t.reqs
  {
    if r !in u.sent {
      assert Waiting(u.at, Home(u.msgs[r]), r) == 1;
      assert Survives(u.msgs, t.msgs, u.at, r);
      assert t.msgs[r].req == r;
    }
    hide RequestsExact, MessagesExact;
  }

  lemma ShrunkMessages(u: State, t: State)
    requires Shrunk(u.msgs, t.msgs, u.reqs, t.reqs, u.at)
    ensures CalmMessages(u, t)
  {
    forall m | m in t.msgs ensures m in u.msgs && SameTale(u.msgs, t.msgs, u.sent, m) {
      assert Survives(u.msgs, t.msgs, u.at, m);
    }
    hide Survives, Placed;
  }

  lemma BuriedRequests(u: State, t: State)
    requires Buried(u.reqs, t.reqs, u.ended, t.ended)
    requires forall r {:trigger r in u.reqs} :: r in u.reqs ==> r !in u.ended && (r in u.sent || r in t.reqs)
    ensures CalmRequests(u, t)
  {
    forall r | r in t.ended
      ensures if r in u.reqs && r !in t.reqs then SameStory(u.reqs[r], t.ended[r])
              else r in u.ended && t.ended[r] == u.ended[r]
    {
    }
  }

  lemma ShrunkCalm(u: State, t: State)
    requires Names(u) && Parking(u) && Settles(u, t)
    requires forall r {:trigger r in u.reqs} :: r in u.reqs ==> r < u.next
    ensures Calm(u, t)
  {
    hide KeysFit, AllBooked, AllPlaced, FirstsFit, Kept, RefInv, Shrunk, Buried, CalmMessages, CalmRequests;
    ShrunkMessages(u, t);
    forall r | r in u.reqs ensures r !in u.ended && (r in u.sent || r in t.reqs) {
      DeletedLeft(u, t, r);
      BookedOf(u, r);
    }
    BuriedRequests(u, t);
  }

  lemma ShrunkNames(u: State, t: State)
    requires Names(u) && Parking(u) && Settles(u, t) && Owned(u.msgs, u.reqs, u.next)
    requires forall r {:trigger r in u.reqs} :: r in u.reqs ==> r < u.next
    ensures Names(t)
  {
    hide KeysFit, AllBooked, AllPlaced, FirstsFit, Kept, RefInv, Calm, Shrunk, Buried;
    ShrunkCalm(u, t);
    CalmNames(u, t);
  }

  // ---------------------------------------------------------------- handlers

  ghost predicate GivesBack(k: Command, a: Reaction, id: ChargeId)
    requires a.Reaction?
  {
    a.gives == Some(Release(ChargeOf(k, id).node, ChargeOf(k, id).channel, id))
  }

  /** A handler gives back the credit of a request that is past RECEIVED already: the handlers of replies release it
      before they look at the state of the request, and an E2E ACK is only ignored for a FINISHED one. */
  predicate Repays(msgs: Msgs, msg: Msg, q: Req) {
    || (IsReply(msg.typ) && Rank(q.phase) > Rank(Received))
    || (msg.typ.E2eAck? && q.phase.Answered? && msg.answers.Some? && msg.answers.value in msgs
        && IsRequest(msgs[msg.answers.value].typ))
  }

  /** The credit of the request goes back, and leaves the request past RECEIVED. */
  ghost predicate GivesRequest(msgs: Msgs, msg: Msg, q: Req, a: Reaction)
    requires a.Reaction?
  {
    && GivesBack(q.command, a, ChargeId(msg.req, msg.req)) && Rank(a.req.phase) > Rank(Received)
    && (Rank(q.phase) > Rank(Received) <==> Repays(msgs, msg, q))
  }

  /** The credit of a reply goes back, and finishes the request. */
  ghost predicate GivesReply(msgs: Msgs, msg: Msg, q: Req, a: Reaction)
    requires a.Reaction?
  {
    && msg.typ.E2eAck? && msg.answers.Some? && msg.answers.value in msgs && IsReply(msgs[msg.answers.value].typ)
    && msgs[msg.answers.value].origin != msg.req
    && GivesBack(q.command, a, ChargeId(msg.req, msgs[msg.answers.value].origin))
    && q.phase.Answered? && a.req.phase.Finished?
  }

  predicate SendsBack(msg: Msg, a: Reaction)
    requires a.Reaction?
  {
    a.sends.Some? ==>
      var typ := a.sends.value.typ;
      && !IsRequest(typ) && (!typ.E2eAck? ==> a.sends.value.retry == 0)
      && (typ.E2eAck? && IsReply(msg.typ) ==> Rank(a.req.phase) >= Rank(Answered))
  }

  /** What every handler does to the charges of its request. */
  ghost predicate Orderly(msgs: Msgs, msg: Msg, q: Req, a: Reaction)
    requires a.Reaction?
  {
    && a.req.command == q.command && Rank(a.req.phase) >= Rank(q.phase) && SendsBack(msg, a)
    && (if a.gives.Some? then GivesRequest(msgs, msg, q, a) || GivesReply(msgs, msg, q, a)
        else !Repays(msgs, msg, q) && (Rank(a.req.phase) > Rank(Received) ==> Rank(q.phase) > Rank(Received)))
  }

  /** Raising events moves no request. */
  lemma EventsSame()
    ensures forall q {:trigger MaybeIssueSend(q)} ::
      MaybeIssueSend(q).command == q.command && MaybeIssueSend(q).phase == q.phase
    ensures forall q, f {:trigger IssueAck(q, f)} ::
      IssueAck(q, f).command == q.command && IssueAck(q, f).phase == q.phase
    ensures forall q {:trigger PutEvent(q)} :: PutEvent(q).command == q.command && PutEvent(q).phase == q.phase
    ensures forall q {:trigger Concluded(q)} :: Concluded(q).command == q.command && Concluded(q).phase == q.phase
  {
  }

  lemma PutOrderly(c: Config, msgs: Msgs, m: MsgId, msg: Msg, q: Req, x: Match)
    requires msg.typ.PtlPut? || msg.typ.PtlAtomic?
    requires Travels(msg, q.command.src, q.command.dst) && msg.service == q.command.service
    ensures Orderly(msgs, msg, q, HandlePut(c, m, msg, q, x)) && Orderly(msgs, msg, q, HandleAtomic(c, m, msg, q, x))
  {
    EventsSame();
    hide IssueAck, MaybeIssueSend, PutEvent;
  }

  lemma GetOrderly(msgs: Msgs, m: MsgId, msg: Msg, q: Req, x: Match, response: MsgType)
    requires (msg.typ.PtlGet? || msg.typ.PtlFetchAtomic?) && IsReply(response)
    ensures Orderly(msgs, msg, q, HandleGet(m, q, x, response))
  {
  }

  lemma RequestOrderly(c: Config, msgs: Msgs, m: MsgId, msg: Msg, q: Req, x: Match)
    requires IsRequest(msg.typ) && Travels(msg, q.command.src, q.command.dst) && msg.service == q.command.service
    ensures var a := React(c, msgs, m, msg, q, x); a.Reaction? && Orderly(msgs, msg, q, a)
  {
    match msg.typ
    case PtlPut => PutOrderly(c, msgs, m, msg, q, x);
    case PtlAtomic => PutOrderly(c, msgs, m, msg, q, x);
    case PtlGet => GetOrderly(msgs, m, msg, q, x, GetResponse);
    case PtlFetchAtomic => GetOrderly(msgs, m, msg, q, x, FetchAtomicResponse);
    hide Orderly;
  }

  lemma ReplyOrderly(c: Config, msgs: Msgs, m: MsgId, msg: Msg, q: Req, x: Match)
    requires IsReply(msg.typ) && Travels(msg, q.command.dst, q.command.src)
    ensures var a := React(c, msgs, m, msg, q, x); a.Reaction? && Orderly(msgs, msg, q, a)
  {
  }

  lemma AckOrderly(c: Config, msgs: Msgs, m: MsgId, q: Req, x: Match)
    requires m in msgs && msgs[m].typ.E2eAck? && msgs[m].answers.Some? && msgs[m].answers.value in msgs
    requires var b := msgs[msgs[m].answers.value];
      && !b.typ.E2eAck? && b.req == msgs[m].req && b.service == q.command.service
      && Travels(msgs[m], b.target, b.initiator) && (IsRequest(b.typ) <==> b.origin == b.req)
      && if IsRequest(b.typ) then Travels(b, q.command.src, q.command.dst)
         else Travels(b, q.command.dst, q.command.src) && Rank(q.phase) >= Rank(Answered)
    ensures var a := React(c, msgs, m, msgs[m], q, x); a.Reaction? && Orderly(msgs, msgs[m], q, a)
  {
    EventsSame();
    hide Concluded;
  }

  lemma ReactionOrderly(c: Config, s: State, m: MsgId, x: Match)
    requires Names(s) && Types(c, s) && Live(s, m) && LinkSound(s.msgs, m) && Owned(s.msgs, s.reqs, s.next)
    ensures var a := ReactionTo(c, s, m, x); a.Reaction? && Orderly(s.msgs, s.msgs[m], ReqOf(s, m), a)
  {
    var msg, q := s.msgs[m], ReqOf(s, m);
    assert TypedAt(c, s.msgs, s.reqs, m);
    PlacedOf(s, m);
    if msg.answers.Some? {
      assert TypedAt(c, s.msgs, s.reqs, msg.answers.value);
      PlacedOf(s, msg.answers.value);
    }
    assert msg.service == q.command.service;
    hide AllTyped, React, Names, Orderly;
    if IsRequest(msg.typ) {
      RequestOrderly(c, s.msgs, m, msg, q, x);
    } else if IsReply(msg.typ) {
      ReplyOrderly(c, s.msgs, m, msg, q, x);
    } else {
      AckOrderly(c, s.msgs, m, q, x);
    }
  }

  // ---------------------------------------------------------------- deliveries

  lemma TaleKeys(s: State, m: MsgId, a: Reaction, u: State)
    requires KeysFit(s.reqs, s.ended, s.sent, s.open)
    requires Live(s, m) && a.Reaction? && Tale(s, m, a, u) && a.req.command == ReqOf(s, m).command
    ensures KeysFit(u.reqs, u.ended, u.sent, u.open)
  {
    TaleRest(s, m, a, u);
    hide Tale;
    forall id | id in u.open ensures KeyFits(u.reqs, u.ended, u.sent, u.open, id) {
      assert KeyFits(s.reqs, s.ended, s.sent, s.open, id);
    }
  }

  lemma TaleBooked(s: State, m: MsgId, a: Reaction, u: State)
    requires AllBooked(s.reqs, s.ended, s.sent, s.open) && Live(s, m) && s.msgs[m].req in s.sent
    requires a.Reaction? && Tale(s, m, a, u) && Orderly(s.msgs, s.msgs[m], ReqOf(s, m), a)
    ensures AllBooked(u.reqs, u.ended, u.sent, u.open)
  {
    TaleRest(s, m, a, u);
    hide Tale, Repays, ChargeOf;
    forall r ensures BookedAt(u.reqs, u.ended, u.sent, u.open, r) {
      assert BookedAt(s.reqs, s.ended, s.sent, s.open, r);
    }
  }

  /** Only the give-back that finishes a request takes the credit of its reply. */
  lemma ReplyStaysOut(s: State, m: MsgId, a: Reaction, u: State, k: MsgId)
    requires Live(s, m) && a.Reaction? && Tale(s, m, a, u) && Orderly(s.msgs, s.msgs[m], ReqOf(s, m), a)
    requires Live(s, k) && Placed(s.msgs, k, s.sent, s.open, ReqOf(s, k)) && IsReply(s.msgs[k].typ)
    requires s.msgs[k].origin in s.sent && s.msgs[k].req in u.reqs && !u.reqs[s.msgs[k].req].phase.Finished?
    ensures ChargeId(s.msgs[k].req, s.msgs[k].origin) in u.open
  {
    TaleRest(s, m, a, u);
    hide Tale, Repays, ChargeOf;
  }

  /** Messages that were there before. */
  lemma TaleOld(s: State, m: MsgId, a: Reaction, u: State, k: MsgId)
    requires Live(s, m) && a.Reaction? && Tale(s, m, a, u) && Orderly(s.msgs, s.msgs[m], ReqOf(s, m), a)
    requires Live(s, k) && Placed(s.msgs, k, s.sent, s.open, ReqOf(s, k)) && s.next !in s.sent
    ensures k in u.msgs && u.msgs[k].req in u.reqs && Placed(u.msgs, k, u.sent, u.open, u.reqs[u.msgs[k].req])
  {
    TaleRest(s, m, a, u);
    assert SameButCount(s.msgs[k], u.msgs[k]);
    var b := s.msgs[k].answers;
    if b.Some? && b.value in u.msgs { TaleMsgs(s, m, a, u, b.value); }
    if IsReply(s.msgs[k].typ) && s.msgs[k].origin in s.sent && !u.reqs[s.msgs[k].req].phase.Finished? {
      ReplyStaysOut(s, m, a, u, k);
    }
    assert Rank(a.req.phase) >= Rank(ReqOf(s, m).phase);
    hide Tale, Orderly, Placed;
    PlacedKept(s.msgs, k, s.sent, s.open, ReqOf(s, k), u.msgs, u.sent, u.open, u.reqs[u.msgs[k].req]);
  }

  /** The message that is sent back. */
  lemma TaleNew(s: State, m: MsgId, a: Reaction, u: State)
    requires Live(s, m) && a.Reaction? && Tale(s, m, a, u) && a.sends.Some? && SendsBack(s.msgs[m], a)
    requires s.next !in s.sent && s.next !in s.msgs && s.next !in s.reqs && m in s.sent && s.msgs[m].req in s.sent
    ensures s.next in u.msgs && u.msgs[s.next].req in u.reqs
    ensures Placed(u.msgs, s.next, u.sent, u.open, u.reqs[u.msgs[s.next].req])
  {
    TaleRest(s, m, a, u);
    TaleMsgs(s, m, a, u, s.next);
    assert SameButCount(s.msgs[m], u.msgs[m]);
  }

  lemma TalePlaced(s: State, m: MsgId, a: Reaction, u: State)
    requires AllPlaced(s.msgs, s.reqs, s.sent, s.open) && FirstsFit(s.msgs, s.reqs) && Owned(s.msgs, s.reqs, s.next)
    requires Live(s, m) && a.Reaction? && Tale(s, m, a, u) && Orderly(s.msgs, s.msgs[m], ReqOf(s, m), a)
    requires s.next !in s.sent && s.next !in s.msgs && s.next !in s.reqs && m in s.sent && s.msgs[m].req in s.sent
    ensures AllPlaced(u.msgs, u.reqs, u.sent, u.open) && FirstsFit(u.msgs, u.reqs)
  {
    TaleRest(s, m, a, u);
    forall k | k in u.msgs
      ensures if k in s.msgs then u.msgs[k].req == s.msgs[k].req else a.sends.Some? && k == s.next
    {
      TaleMsgs(s, m, a, u, k);
    }
    assert SendsBack(s.msgs[m], a);
    hide Tale, Orderly, Placed, SendsBack;
    forall k | k in u.msgs && u.msgs[k].req in u.reqs
      ensures Placed(u.msgs, k, u.sent, u.open, u.reqs[u.msgs[k].req])
    {
      if k in s.msgs {
        assert Placed(s.msgs, k, s.sent, s.open, ReqOf(s, k));
        TaleOld(s, m, a, u, k);
      } else {
        TaleNew(s, m, a, u);
      }
    }
  }

  lemma OwnerSent(s: State, m: MsgId)
    requires Names(s) && Parking(s) && Live(s, m) && m in s.at.net
    ensures m in s.sent && s.msgs[m].req in s.sent
  {
    PlacedOf(s, m);
    hide Names;
    assert s.at.net[m] > 0;
  }

  lemma TaleNames(s: State, m: MsgId, a: Reaction, u: State)
    requires Names(s) && Owned(s.msgs, s.reqs, s.next)
    requires Live(s, m) && a.Reaction? && Tale(s, m, a, u) && Orderly(s.msgs, s.msgs[m], ReqOf(s, m), a)
    requires s.next !in s.sent && s.next !in s.msgs && s.next !in s.reqs && m in s.sent && s.msgs[m].req in s.sent
    ensures Names(u)
  {
    hide KeysFit, AllBooked, AllPlaced, FirstsFit, WatchedWereSent;
    TaleKeys(s, m, a, u);
    TaleBooked(s, m, a, u);
    TalePlaced(s, m, a, u);
    TaleRest(s, m, a, u);
    hide Tale, Orderly;
    WatchedKept(s.at, u.at, u.sent);
  }

  lemma ExactParts(s: State, debt: multiset<MsgId>)
    requires Exact(s, debt, multiset{})
    ensures Owned(s.msgs, s.reqs, s.next) && s.next !in s.msgs && s.next !in s.reqs
    ensures forall r {:trigger r in s.reqs} :: r in s.reqs ==> r < s.next
  {
    hide MessagesExact;
  }

  /** What a handler leaves behind, if its give-back does not abort. */
  lemma DeliveryTale(c: Config, s: State, m: MsgId, x: Match)
    requires !c.e2eOff && NameSound(c, s) && s.fault.NoFault? && m in s.at.net
    ensures Live(s, m)
    ensures var s1, a := Arrived(s, m), ReactionTo(c, s, m, x);
      && a.Reaction? && Orderly(s.msgs, s.msgs[m], ReqOf(s, m), a) && m in s.sent && s.msgs[m].req in s.sent
      && var u := Apply(c, s1, m, a);
         (u.fault.NoFault? ==> Tale(s1, m, a, u) && Names(u) && Parking(u) && Owned(u.msgs, u.reqs, u.next))
  {
    hide MessagesExact, RequestsExact, Owned, Kept, Types, React, Apply, Names, Shrunk, Tame, Tale, Releasable, Orderly,
         Buried, LinkSound, RefInv;
    SoundOf(c, s);
    DeliverParts(c, s, m, x);
    var s1, a := Arrived(s, m), ReactionTo(c, s, m, x);
    var u := Apply(c, s1, m, a);
    ArrivedNames(s, m);
    OwnerSent(s, m);
    NeverSent(s);
    ExactParts(s1, multiset{m});
    ArrivedOrderly(c, s, m, x);
    ReactionTame(c, s1, m, x);
    TameSends(s1, m, a);
    ApplyParks(c, s1, m, a);
    ExactParts(u, multiset{m});
    if u.fault.NoFault? {
      ApplyFrame(c, s1, m, a);
      ApplyTale(c, s1, m, a);
      TaleNames(s1, m, a, u);
    }
  }

  lemma ArrivedNames(s: State, m: MsgId)
    requires Names(s)
    ensures Names(Arrived(s, m))
  {
    hide KeysFit, AllBooked, AllPlaced, FirstsFit;
  }

  lemma ArrivedOrderly(c: Config, s: State, m: MsgId, x: Match)
    requires Names(s) && Types(c, s) && Taken(Arrived(s, m), m)
    ensures var a := ReactionTo(c, s, m, x); a.Reaction? && Orderly(s.msgs, s.msgs[m], ReqOf(s, m), a)
  {
    hide MessagesExact, RequestsExact, Types, Names, Kept, React;
    ReactionOrderly(c, s, m, x);
  }

  lemma DeliverNames(c: Config, s: State, m: MsgId, x: Match)
    requires !c.e2eOff && NameSound(c, s)
    ensures NameSound(c, Deliver(c, s, m, x))
  {
    hide TypeSound, Names, React, Apply, Unref, Shrunk, Tale, Orderly, Exact, Kept, Settles, Owned;
    DeliverTypes(c, s, m, x);
    if s.fault.NoFault? && m in s.at.net {
      SoundOf(c, s);
      DeliverParts(c, s, m, x);
      DeliveryTale(c, s, m, x);
      var u := Apply(c, Arrived(s, m), m, ReactionTo(c, s, m, x));
      ExactParts(u, multiset{m});
      if Deliver(c, s, m, x).fault.NoFault? {
        SettlesFault(u, Deliver(c, s, m, x));
        ShrunkNames(u, Deliver(c, s, m, x));
      }
    }
  }

  lemma SettlesFault(u: State, t: State)
    requires Settles(u, t)
    ensures t.fault == u.fault && t.flows == u.flows && t.open == u.open && t.sent == u.sent && t.next == u.next
  {
  }

  // ---------------------------------------------------------------- other steps

  lemma IssueNames(c: Config, s: State, k: Command)
    requires NameSound(c, s)
    ensures NameSound(c, Issue(s, k))
  {
    hide TypeSound, Sound, Types, Kept, Names, Owned;
    IssueTypes(c, s, k);
    if s.fault.NoFault? && CqFree(s, Interface(k.src, k.srcPid)) > 0 {
      SoundOf(c, s);
      OwnedOf(s);
      SoundFresh(s);
      NeverSent(s);
      IssueCalm(s, k);
      WatchedOf(s, Issue(s, k));
      CalmNames(s, Issue(s, k));
    }
  }

  lemma WatchedOf(s: State, t: State)
    requires Names(s) && t.at.e2e == s.at.e2e && s.sent <= t.sent
    ensures WatchedWereSent(t.at, t.sent)
  {
    hide KeysFit, AllBooked, AllPlaced, FirstsFit;
    forall n, m | Count(t.at.e2e, n, m) > 0 ensures m in t.sent { assert Count(s.at.e2e, n, m) > 0; }
  }

  lemma IssueCalm(s: State, k: Command)
    requires s.fault.NoFault? && CqFree(s, Interface(k.src, k.srcPid)) > 0
    requires s.next !in s.msgs && s.next !in s.reqs && s.next !in s.sent
    ensures Calm(s, Issue(s, k)) && Issue(s, k).at.e2e == s.at.e2e
  {
    hide Push;
  }

  lemma ConsumeNames(c: Config, s: State, m: MsgId)
    requires NameSound(c, s)
    ensures NameSound(c, ConsumeHeader(s, m))
  {
    hide TypeSound, MessagesExact, RequestsExact, Owned, Types, Unref, Kept, Settles, Names, Calm;
    ConsumeTypes(c, s, m);
    if s.fault.NoFault? && m in s.at.uh {
      SoundOf(c, s);
      var s1 := s.(at := s.at.(uh := s.at.uh - multiset{m}));
      ConsumeParts(s, m);
      WaitingKept(s, Noted(s1, m));
      ExactParts(s, multiset{});
      NotedCalm(s, s1, m);
      WatchedOf(s, Noted(s1, m));
      CalmNames(s, Noted(s1, m));
      NotedOwned(s, s1, m);
      SettlesFault(Noted(s1, m), ConsumeHeader(s, m));
      ShrunkNames(Noted(s1, m), ConsumeHeader(s, m));
    }
  }

  lemma NotedCalm(s: State, s1: State, m: MsgId)
    requires s1 == s.(at := s.at.(uh := s.at.uh - multiset{m})) && Live(s1, m)
    ensures Calm(s, Noted(s1, m)) && Noted(s1, m).at.e2e == s.at.e2e
  {
  }

  lemma NotedOwned(s: State, s1: State, m: MsgId)
    requires s1 == s.(at := s.at.(uh := s.at.uh - multiset{m})) && Live(s1, m) && Owned(s.msgs, s.reqs, s.next)
    ensures var u := Noted(s1, m); Owned(u.msgs, u.reqs, u.next) && u.reqs.Keys == s.reqs.Keys && u.next == s.next
  {
  }

  lemma ExpiredNames(s: State, n: Nid)
    requires Names(s) && Q(s.at.e2e, n) != []
    ensures Names(Expired(s, n)) && Q(s.at.e2e, n)[0] in s.sent
  {
    PopCount(s.at.e2e, n);
    hide KeysFit, AllBooked, AllPlaced, FirstsFit;
    forall k, m | Count(Expired(s, n).at.e2e, k, m) > 0 ensures m in s.sent { assert Count(s.at.e2e, k, m) > 0; }
  }

  lemma RetransmitCalm(s: State, n: Nid, m: MsgId)
    requires Live(s, m) && s.next !in s.msgs && s.next !in s.sent && s.next !in s.reqs && m in s.sent
    requires Placed(s.msgs, m, s.sent, s.open, ReqOf(s, m)) && s.msgs[m].req < s.next && !s.msgs[m].typ.E2eAck?
    ensures var t := Retransmit(s, n, m); Calm(s, t) && t.at.e2e == s.at.e2e && t.sent == s.sent
  {
    hide Push;
  }

  lemma RetransmitNames(s: State, n: Nid, m: MsgId)
    requires Names(s) && Exact(s, multiset{m}, multiset{}) && Parking(s) && Live(s, m) && m in s.sent
    requires !s.msgs[m].typ.E2eAck?
    ensures Names(Retransmit(s, n, m))
  {
    hide MessagesExact, RequestsExact, Kept, Names, Retransmit, Calm;
    ExactParts(s, multiset{m});
    NeverSent(s);
    PlacedOf(s, m);
    RetransmitCalm(s, n, m);
    WatchedOf(s, Retransmit(s, n, m));
    CalmNames(s, Retransmit(s, n, m));
  }

  lemma TimeoutNames(c: Config, s: State, n: Nid)
    requires NameSound(c, s)
    ensures NameSound(c, Timeout(c, s, n))
  {
    hide TypeSound, MessagesExact, RequestsExact, Owned, Types, Unref, Kept, Settles, Retransmit, Names, LinkSound;
    TimeoutTypes(c, s, n);
    if s.fault.NoFault? && Q(s.at.e2e, n) != [] {
      SoundOf(c, s);
      var m, s1, t := Q(s.at.e2e, n)[0], Expired(s, n), Timeout(c, s, n);
      TimeoutParts(c, s, n);
      ExpiredTypes(c, s, n);
      RetryBound(c, s1, m);
      ExpiredNames(s, n);
      if Retries(c, s1.msgs[m], ReqOf(s1, m)) {
        RetransmitTaken(s1, n, m);
        RetransmitNames(s1, n, m);
        ExactParts(Retransmit(s1, n, m), multiset{m});
        SettlesFault(Retransmit(s1, n, m), t);
        ShrunkNames(Retransmit(s1, n, m), t);
      } else {
        ExactParts(s1, multiset{m});
        SettlesFault(s1, t);
        ShrunkNames(s1, t);
      }
    }
  }

  /** A refused message only changes how counters are stored. */
  lemma ParkedNames(s: State, t: State)
    requires Names(s) && t.msgs == s.msgs && t.reqs == s.reqs && t.ended == s.ended && t.sent == s.sent
    requires t.open == s.open && t.at.e2e == s.at.e2e
    ensures Names(t)
  {
    WatchedOf(s, t);
    hide KeysFit, AllBooked, AllPlaced, FirstsFit, WatchedWereSent;
  }

  // ---------------------------------------------------------------- messages that leave

  /** Message `m` has left in state `t`, with its charge if it needed one. */
  ghost predicate Left(c: Config, s: State, m: MsgId, t: State)
    requires Live(s, m)
  {
    && t.sent == s.sent + {m} && t.at.net == s.at.net + multiset{m} && t.ended == s.ended
    && t.msgs.Keys == s.msgs.Keys && t.reqs.Keys == s.reqs.Keys
    && (forall k {:trigger t.msgs[k]} :: k in s.msgs ==> SameButCount(s.msgs[k], t.msgs[k]))
    && (forall r {:trigger t.reqs[r]} :: r in s.reqs ==> SameStory(s.reqs[r], t.reqs[r]))
    && var name := ChargeName(s.msgs[m]);
       t.open == if NeedsCredit(c, s.msgs[m]) then s.open[name := ChargeOf(ReqOf(s, m).command, name)] else s.open
  }

  lemma LeftParts(c: Config, s: State, m: MsgId, t: State)
    requires Live(s, m) && Left(c, s, m, t)
    ensures t.sent == s.sent + {m} && t.at.net == s.at.net + multiset{m} && t.ended == s.ended
    ensures t.msgs.Keys == s.msgs.Keys && t.reqs.Keys == s.reqs.Keys
    ensures forall id {:trigger id in t.open} {:trigger id in s.open} ::
      id in t.open <==> id in s.open || (NeedsCredit(c, s.msgs[m]) && id == ChargeName(s.msgs[m]))
    ensures forall r {:trigger t.reqs[r]} :: r in s.reqs ==> SameStory(s.reqs[r], t.reqs[r])
    ensures forall k {:trigger t.msgs[k]} :: k in s.msgs ==> SameButCount(s.msgs[k], t.msgs[k])
  {
  }

  /** A message pays under its own name, which is not in use, and only if it has not left before. */
  lemma PaysOnce(c: Config, s: State, m: MsgId)
    requires !c.e2eOff && KeysFit(s.reqs, s.ended, s.sent, s.open) && Live(s, m) && m !in s.sent
    requires Pays(s.msgs[m], m, s.sent)
    ensures NeedsCredit(c, s.msgs[m]) <==> !s.msgs[m].typ.E2eAck? && s.msgs[m].origin == m
    ensures NeedsCredit(c, s.msgs[m]) ==>
      ChargeName(s.msgs[m]) == ChargeId(s.msgs[m].req, m) && ChargeName(s.msgs[m]) !in s.open
  {
    if ChargeName(s.msgs[m]) in s.open { assert KeyFits(s.reqs, s.ended, s.sent, s.open, ChargeName(s.msgs[m])); }
  }

  lemma LeftKeys(c: Config, s: State, m: MsgId, t: State)
    requires !c.e2eOff && KeysFit(s.reqs, s.ended, s.sent, s.open) && Live(s, m) && m !in s.sent && Left(c, s, m, t)
    requires Pays(s.msgs[m], m, s.sent)
    ensures KeysFit(t.reqs, t.ended, t.sent, t.open)
  {
    PaysOnce(c, s, m);
    hide NeedsCredit, Pays;
    forall id | id in t.open ensures KeyFits(t.reqs, t.ended, t.sent, t.open, id) {
      if id in s.open { assert KeyFits(s.reqs, s.ended, s.sent, s.open, id); }
    }
  }

  lemma LeftBooked(c: Config, s: State, m: MsgId, t: State)
    requires !c.e2eOff && AllBooked(s.reqs, s.ended, s.sent, s.open) && KeysFit(s.reqs, s.ended, s.sent, s.open)
    requires Live(s, m) && m !in s.sent && Left(c, s, m, t) && Pays(s.msgs[m], m, s.sent)
    requires m in s.reqs ==> s.msgs[m].req == m
    ensures AllBooked(t.reqs, t.ended, t.sent, t.open)
  {
    PaysOnce(c, s, m);
    LeftParts(c, s, m, t);
    hide NeedsCredit, Left, KeysFit;
    forall r ensures BookedAt(t.reqs, t.ended, t.sent, t.open, r) {
      assert BookedAt(s.reqs, s.ended, s.sent, s.open, r);
    }
  }

  lemma LeftPlaced(c: Config, s: State, m: MsgId, t: State, k: MsgId)
    requires !c.e2eOff && KeysFit(s.reqs, s.ended, s.sent, s.open) && Live(s, m) && Left(c, s, m, t)
    requires m !in s.sent && Pays(s.msgs[m], m, s.sent)
    requires Live(s, k) && Placed(s.msgs, k, s.sent, s.open, ReqOf(s, k))
    ensures k in t.msgs && t.msgs[k].req in t.reqs && Placed(t.msgs, k, t.sent, t.open, t.reqs[t.msgs[k].req])
  {
    PaysOnce(c, s, m);
    LeftParts(c, s, m, t);
    hide NeedsCredit, Left, KeysFit;
    PlacedKept(s.msgs, k, s.sent, s.open, ReqOf(s, k), t.msgs, t.sent, t.open, t.reqs[t.msgs[k].req]);
  }

  lemma LeftNames(c: Config, s: State, m: MsgId, t: State)
    requires !c.e2eOff && Names(s) && Owned(s.msgs, s.reqs, s.next) && Live(s, m) && m !in s.sent && Left(c, s, m, t)
    requires WatchedWereSent(t.at, t.sent)
    ensures Names(t)
  {
    PlacedOf(s, m);
    LeftKeys(c, s, m, t);
    LeftBooked(c, s, m, t);
    LeftParts(c, s, m, t);
    hide KeysFit, AllBooked, Placed, WatchedWereSent, Left, Pays;
    forall k | k in t.msgs && t.msgs[k].req in t.reqs
      ensures Placed(t.msgs, k, t.sent, t.open, t.reqs[t.msgs[k].req])
    {
      assert Placed(s.msgs, k, s.sent, s.open, ReqOf(s, k));
      LeftPlaced(c, s, m, t, k);
    }
  }

  /** The head of a transmit queue leaves; `u` is the state it leaves from, with its charge already made. */
  lemma DispatchLeft(c: Config, s: State, u: State, n: Nid, m: MsgId)
    requires Names(s) && Live(s, m) && m !in s.sent
    requires u.msgs == s.msgs && u.reqs == s.reqs && u.sent == s.sent && u.at.e2e == s.at.e2e && u.ended == s.ended
    requires u.at.net == s.at.net
    requires var name := ChargeName(s.msgs[m]);
      u.open == if NeedsCredit(c, s.msgs[m]) then s.open[name := ChargeOf(ReqOf(s, m).command, name)] else s.open
    ensures var t := Dispatch(c, u, n, m);
      && Left(c, s, m, t) && WatchedWereSent(t.at, t.sent)
      && t.open == u.open && t.flows == u.flows && t.fault == u.fault
  {
    Launched(c, u, n, m);
    WatchedOf(s, u);
    LaunchWatched(c, u, n, m);
    hide Names, Dispatch, ChargeOf;
  }

  /** check_flowctrl charges exactly the key of the message's own charge. */
  lemma ChargedKey(c: Config, msgs: Msgs, m: MsgId, msg: Msg, q: Req, n: Nid, sent: set<MsgId>)
    requires Typed(c, msgs, msg, q.command) && msg.service == q.command.service && msg.initiator == n
    requires !msg.typ.E2eAck? && Pays(msg, m, sent)
    ensures Charge(n, ChargedChannel(msg, q)) == ChargeOf(q.command, ChargeName(msg))
  {
  }

  lemma TransmitReady(c: Config, s: State, p: Port)
    requires NameSound(c, s) && s.fault.NoFault? && Q(s.at.tx, p) != []
    ensures var m := Q(s.at.tx, p)[0];
      && Live(s, m) && m !in s.sent && s.msgs[m].initiator == p.nid && Pays(s.msgs[m], m, s.sent)
      && (!s.msgs[m].typ.E2eAck? ==>
            Charge(p.nid, ChargedChannel(s.msgs[m], ReqOf(s, m))) ==
            ChargeOf(ReqOf(s, m).command, ChargeName(s.msgs[m])))
    ensures Owned(s.msgs, s.reqs, s.next)
  {
    hide MessagesExact, RequestsExact, Types, Kept, Names, ChargedChannel, ChargeOf;
    SoundOf(c, s);
    HeadUnsent(s, p);
    OwnedOf(s);
    var m := Q(s.at.tx, p)[0];
    PlacedOf(s, m);
    MessageTyped(c, s, m);
    if !s.msgs[m].typ.E2eAck? { ChargedKey(c, s.msgs, m, s.msgs[m], ReqOf(s, m), p.nid, s.sent); }
  }

  lemma TransmitNames(c: Config, s: State, p: Port)
    requires !c.e2eOff && NameSound(c, s)
    ensures NameSound(c, Transmit(c, s, p))
  {
    hide TypeSound, Names, Dispatch, CheckFlowctrl, ChargedChannel, ChargeOf, Owned, Left, Pays;
    TransmitTypes(c, s, p);
    if s.fault.NoFault? && Q(s.at.tx, p) != [] {
      TransmitReady(c, s, p);
      var m, popped := Q(s.at.tx, p)[0], Popped(s, p);
      var msg, q := s.msgs[m], ReqOf(s, m);
      if !NeedsCredit(c, msg) {
        DispatchLeft(c, s, popped, p.nid, m);
        LeftNames(c, s, m, Dispatch(c, popped, p.nid, m));
      } else {
        match CheckFlowctrl(c, FlowOf(s, p.nid), ChargedChannel(msg, q))
        case NegativeCredit =>
        case Refused(f) => ParkedNames(s, Transmit(c, s, p));
        case Granted(f) =>
          if f.entries > 0 {
            var u := ChargeFor(popped, p.nid, f, msg, q);
            DispatchLeft(c, s, u, p.nid, m);
            LeftNames(c, s, m, Dispatch(c, u, p.nid, m));
          }
      }
    }
  }

  lemma NextNames(c: Config, s: State, t: Step)
    requires !c.e2eOff && NameSound(c, s)
    ensures NameSound(c, Next(c, s, t))
  {
    hide NameSound, Issue, Transmit, Deliver, Timeout, ConsumeHeader;
    match t
    case IssueStep(k) => IssueNames(c, s, k);
    case TransmitStep(p) => TransmitNames(c, s, p);
    case DeliverStep(m, x) => DeliverNames(c, s, m, x);
    case TimeoutStep(n) => TimeoutNames(c, s, n);
    case HeaderStep(m) => ConsumeNames(c, s, m);
  }

  lemma InitNames(c: Config)
    ensures NameSound(c, INIT)
  {
    RunTypes(c, []);
    hide TypeSound;
  }

  /** In every run with E2E on: each charge has a payer that has left and its own key, the credit of a request is out
      exactly from when its first message leaves until it is answered, and that of a reply until it is finished. */
  lemma {:induction false} RunNames(c: Config, steps: seq<Step>)
    requires !c.e2eOff
    ensures NameSound(c, Run(c, steps))
  {
    hide NameSound;
    if steps == [] {
      InitNames(c);
    } else {
      RunNames(c, steps[..|steps| - 1]);
      NextNames(c, Run(c, steps[..|steps| - 1]), steps[|steps| - 1]);
    }
  }

  // ---------------------------------------------------------------- theorems

  /** In every run: the credit of a request is out exactly from when its first message leaves until the request is
      answered or finished, whether the request is live or deleted, and under the key of its request message. */
  lemma RequestCreditOut(c: Config, steps: seq<Step>, r: ReqId)
    requires !c.e2eOff && Run(c, steps).fault.NoFault? && Issued(Run(c, steps), r)
    ensures var s := Run(c, steps);
      && (ChargeId(r, r) in s.open <==> r in s.sent && Rank(RecordOf(s, r).phase) <= Rank(Received))
      && (ChargeId(r, r) in s.open ==> s.open[ChargeId(r, r)] == RequestCharge(RecordOf(s, r).command))
  {
    hide TypeSound, Names;
    RunNames(c, steps);
    var s := Run(c, steps);
    hide Run;
    BookedOf(s, r);
    KeyOf(s, ChargeId(r, r));
  }

  lemma KeyOf(s: State, id: ChargeId)
    requires Names(s)
    ensures id in s.open ==> KeyFits(s.reqs, s.ended, s.sent, s.open, id)
  {
    hide AllBooked, AllPlaced, KeyFits;
  }

  /** In every run: the credit of a reply is out, under the key of its request's replies, from when the reply or the
      message it is a copy of leaves until the request is finished. */
  lemma ReplyCreditOut(c: Config, steps: seq<Step>, m: MsgId)
    requires !c.e2eOff && Run(c, steps).fault.NoFault? && m in Run(c, steps).msgs && IsReply(Run(c, steps).msgs[m].typ)
    ensures var s := Run(c, steps);
      && Live(s, m)
      && (m in s.sent && !ReqOf(s, m).phase.Finished? ==>
            ChargeName(s.msgs[m]) in s.open && s.open[ChargeName(s.msgs[m])] == ReplyCharge(ReqOf(s, m).command))
  {
    hide TypeSound, Names;
    RunNames(c, steps);
    var s := Run(c, steps);
    RunSound(c, steps);
    OwnedOf(s);
    hide Run;
    LiveOwned(s, m);
    PlacedOf(s, m);
    KeyOf(s, ChargeName(s.msgs[m]));
  }

  /** In every run, whatever was retransmitted, answered or delivered twice: each of the four give-back sites rebuilds
      exactly the key of one charge, that of the request's first message or that of the reply an E2E ACK answers. */
  lemma GivesKey(c: Config, steps: seq<Step>, m: MsgId, x: Match)
    requires !c.e2eOff && Run(c, steps).fault.NoFault? && m in Run(c, steps).at.net
    ensures var s := Run(c, steps);
      && Live(s, m) && ReactionTo(c, s, m, x).Reaction?
      && var a, msg, k := ReactionTo(c, s, m, x), s.msgs[m], ReqOf(s, m).command;
         a.gives.Some? ==>
           && Charge(a.gives.value.node, a.gives.value.channel) == ChargeOf(k, a.gives.value.id)
           && (a.gives.value.id == ChargeId(msg.req, msg.req)
               || (msg.typ.E2eAck? && msg.answers.Some? && msg.answers.value in s.msgs
                   && IsReply(s.msgs[msg.answers.value].typ)
                   && a.gives.value.id == ChargeId(msg.req, s.msgs[msg.answers.value].origin)))
  {
    hide TypeSound, Names, Run, ReactionTo, Repays, ChargeOf, Tale, Apply;
    RunNames(c, steps);
    DeliveryTale(c, Run(c, steps), m, x);
  }
}
