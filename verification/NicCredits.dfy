/** How requests move in clean runs, where no request is answered twice and only requests are retransmitted: one
    message at a time moves a request forward, and only that message, or the one it answers, can be a charged reply. */
module NicCredits {
  import opened Wire
  import opened Nic
  import opened NicRefs
  import opened NicParking
  import opened NicRefRuns
  import opened NicTypes
  import opened NicLedger
  import opened NicFrames
  import opened NicCharges

  // ---------------------------------------------------------------- the story of one request

  /** A request that no entry matched stays CREATED even while an answer to it is under way; that answer has
      then replaced its first message as its token. The first message of a request has the request's number. */
  function Stage(r: ReqId, q: Req): Phase {
    if q.phase.Created? && q.token != r then Received else q.phase
  }

  ghost predicate AnswersRequest(msgs: Msgs, m: MsgId)
    requires m in msgs
  {
    && msgs[m].typ.E2eAck? && msgs[m].answers.Some? && msgs[m].answers.value in msgs
    && IsRequest(msgs[msgs[m].answers.value].typ)
  }

  ghost predicate AnswersReply(msgs: Msgs, m: MsgId)
    requires m in msgs
  {
    && msgs[m].typ.E2eAck? && msgs[m].answers.Some? && msgs[m].answers.value in msgs
    && IsReply(msgs[msgs[m].answers.value].typ)
  }

  ghost predicate TokenFits(msgs: Msgs, sent: set<MsgId>, m: MsgId, stage: Phase)
    requires m in msgs
  {
    match stage
    case Created => IsRequest(msgs[m].typ) && (m !in sent ==> msgs[m].retry == 0)
    case Received => IsReply(msgs[m].typ) || AnswersRequest(msgs, m)
    case Answered => AnswersReply(msgs, m)
    case Finished => true
  }

  /** The token is the one message that can move an answered request forward. The first message of a request
      that is not answered may be gone: delivered without effect, and left to its retransmissions. */
  ghost predicate TokenMoves(msgs: Msgs, at: Places, sent: set<MsgId>, r: ReqId, q: Req) {
    match Stage(r, q)
    case Finished => true
    case Created => r in msgs ==> msgs[r].req == r && TokenFits(msgs, sent, r, Created)
    case stage =>
      && q.token in msgs && msgs[q.token].req == r && Undelivered(at, sent, q.token)
      && TokenFits(msgs, sent, q.token, stage)
  }

  /** Until its first message leaves, a request is that message. */
  ghost predicate Started(msgs: Msgs, sent: set<MsgId>, r: ReqId, q: Req) {
    r in sent || (q.phase.Created? && q.token == r && r in msgs)
  }

  /** The reply that message `p` is, or is a copy of, is the token or the message the token answers. */
  ghost predicate Holds(msgs: Msgs, stage: Phase, token: MsgId, p: MsgId) {
    && token in msgs
    && if stage.Received? then IsReply(msgs[token].typ) && msgs[token].origin == p
       else stage.Answered? && AnswersReply(msgs, token) && msgs[msgs[token].answers.value].origin == p
  }

  /** At most one reply of a request is charged. */
  ghost predicate OneReply(msgs: Msgs, open: Ledger, r: ReqId, q: Req) {
    forall p {:trigger ChargeId(r, p)} :: p != r && ChargeId(r, p) in open ==> Holds(msgs, Stage(r, q), q.token, p)
  }

  ghost predicate Tracked(msgs: Msgs, at: Places, sent: set<MsgId>, open: Ledger, r: ReqId, q: Req) {
    TokenMoves(msgs, at, sent, r, q) && OneReply(msgs, open, r, q) && Started(msgs, sent, r, q)
  }

  /** A message other than the token is a sent request, a retransmission, or already delivered. */
  ghost predicate Follows(msg: Msg, m: MsgId, at: Places, sent: set<MsgId>, q: Req) {
    && (IsReply(msg.typ) ==> msg.retry == 0)
    && (!IsRequest(msg.typ) && Undelivered(at, sent, m) ==> !q.phase.Finished? && q.token == m)
    && (IsRequest(msg.typ) && msg.retry == 0 ==> m == msg.req)
    && (m != msg.req ==> msg.req in sent)
  }

  /** A deleted request was finished, or never answered, and no reply of it is charged. */
  ghost predicate Departed(open: Ledger, r: ReqId, q: Req) {
    && (q.phase.Finished? || (q.phase.Created? && q.token == r))
    && forall p {:trigger ChargeId(r, p)} :: p != r ==> ChargeId(r, p) !in open
  }

  ghost predicate AllDeparted(ended: Reqs, open: Ledger) {
    forall r {:trigger ended[r]} :: r in ended ==> Departed(open, r, ended[r])
  }

  ghost predicate AllTracked(msgs: Msgs, reqs: Reqs, at: Places, sent: set<MsgId>, open: Ledger) {
    forall r {:trigger Tracked(msgs, at, sent, open, r, reqs[r])} ::
      r in reqs ==> Tracked(msgs, at, sent, open, r, reqs[r])
  }

  ghost predicate AllFollow(msgs: Msgs, reqs: Reqs, at: Places, sent: set<MsgId>) {
    forall m {:trigger Follows(msgs[m], m, at, sent, reqs[msgs[m].req])} ::
      m in msgs && msgs[m].req in reqs ==> Follows(msgs[m], m, at, sent, reqs[msgs[m].req])
  }

  ghost predicate Tokens(s: State) {
    && AllTracked(s.msgs, s.reqs, s.at, s.sent, s.open) && AllFollow(s.msgs, s.reqs, s.at, s.sent)
    && AllDeparted(s.ended, s.open)
  }

  // ---------------------------------------------------------------- what leaves a request's story alone

  /** No reply of request `r` is charged that was not. */
  ghost predicate NoNewReply(open: Ledger, open': Ledger, r: ReqId) {
    forall p {:trigger ChargeId(r, p)} :: p != r && ChargeId(r, p) in open' ==> ChargeId(r, p) in open
  }

  /** The token and the message it answers keep their tale, and the token is still on its way. */
  ghost predicate TokenStays(msgs: Msgs, at: Places, sent: set<MsgId>, t: MsgId, msgs': Msgs, at': Places,
                             sent': set<MsgId>) {
    && SameTale(msgs, msgs', sent, t)
    && (t in sent <==> t in sent') && (t in at.net ==> t in at'.net)
    && (msgs[t].answers.Some? && msgs[t].answers.value in msgs ==> SameTale(msgs, msgs', sent, msgs[t].answers.value))
  }

  /** The same for the first message of a request that is not answered, which may also be destroyed. */
  ghost predicate FirstStays(msgs: Msgs, sent: set<MsgId>, r: ReqId, msgs': Msgs) {
    if r in msgs' then SameTale(msgs, msgs', sent, r) else r in sent
  }

  lemma TrackedKept(msgs: Msgs, at: Places, sent: set<MsgId>, open: Ledger, r: ReqId, q: Req,
                    msgs': Msgs, at': Places, sent': set<MsgId>, open': Ledger, q': Req)
    requires Tracked(msgs, at, sent, open, r, q) && SameStory(q, q') && NoNewReply(open, open', r)
    requires r in sent <==> r in sent'
    requires match Stage(r, q)
             case Finished => true
             case Created => FirstStays(msgs, sent, r, msgs')
             case _ => TokenStays(msgs, at, sent, q.token, msgs', at', sent')
    ensures Tracked(msgs', at', sent', open', r, q')
  {
    forall p | p != r && ChargeId(r, p) in open' ensures Holds(msgs', Stage(r, q'), q'.token, p) {
      assert ChargeId(r, p) in open;
    }
  }

  lemma DepartedKept(ended: Reqs, open: Ledger, open': Ledger)
    requires AllDeparted(ended, open)
    requires forall r {:trigger r in ended} :: r in ended ==> NoNewReply(open, open', r)
    ensures AllDeparted(ended, open')
  {
    forall r | r in ended ensures Departed(open', r, ended[r]) {
      assert Departed(open, r, ended[r]) && NoNewReply(open, open', r);
    }
  }

  lemma NoNewReplySelf(open: Ledger, r: ReqId)
    ensures NoNewReply(open, open, r)
  {
  }

  // ---------------------------------------------------------------- reactions

  /** The request moves one or two stages forward, giving back what that stage no longer needs. */
  ghost predicate Advances(msgs: Msgs, r: ReqId, q: Req, msg: Msg, a: Reaction)
    requires a.Reaction?
  {
    && a.req.command == q.command
    && match Stage(r, q)
       case Created =>
         && IsRequest(msg.typ)
         && (if a.sends.Some? then a.gives.None? && a.sends.value.retry == 0 && Answered(a.req, a.sends.value.typ)
             else a.req.phase.Finished? && GivesBack(q.command, a, ChargeId(r, r)))
       case Received =>
         && GivesBack(q.command, a, ChargeId(r, r)) && !IsRequest(msg.typ)
         && (if a.req.phase.Answered? then IsReply(msg.typ) && a.sends.Some? && a.sends.value.typ.E2eAck?
             else a.req.phase.Finished? && a.sends.None? && !IsReply(msg.typ))
       case Answered =>
         && msg.answers.Some? && msg.answers.value in msgs
         && GivesBack(q.command, a, ChargeId(r, msgs[msg.answers.value].origin)) && !IsRequest(msg.typ)
         && a.req.phase.Finished? && a.sends.None?
       case Finished => false
  }

  /** Matched, the request is answered by a reply or an E2E ACK; unmatched, by a reply at most. */
  predicate Answered(q: Req, answer: MsgType) {
    (q.phase.Received? && (IsReply(answer) || answer.E2eAck?)) || (q.phase.Created? && IsReply(answer))
  }

  ghost predicate Ignores(q: Req, msg: Msg, a: Reaction)
    requires a.Reaction?
  {
    IsRequest(msg.typ) && a.gives.None? && a.sends.None? && a.req == q
  }

  /** Some message, or in quick mode a credit, goes back to the initiator. */
  predicate Answers(a: Reaction) {
    a.Reaction? && (a.sends.Some? || a.gives.Some?)
  }

  lemma RequestAdvances(c: Config, msgs: Msgs, m: MsgId, msg: Msg, q: Req, x: Match)
    requires !c.e2eOff && IsRequest(msg.typ)
    requires q.phase.Created? && q.token != msg.req ==> !Answers(React(c, msgs, m, msg, q, x))
    requires Fits(msg.typ, q.command.typ) && Travels(msg, q.command.src, q.command.dst)
    requires msg.service == q.command.service
    ensures var a := React(c, msgs, m, msg, q, x);
      a.Reaction? && (Ignores(q, msg, a) || Advances(msgs, msg.req, q, msg, a))
  {
  }

  lemma ReplyAdvances(c: Config, msgs: Msgs, m: MsgId, msg: Msg, q: Req, x: Match)
    requires !c.e2eOff && IsReply(msg.typ) && Stage(msg.req, q).Received?
    requires Travels(msg, q.command.dst, q.command.src)
    ensures var a := React(c, msgs, m, msg, q, x); a.Reaction? && Advances(msgs, msg.req, q, msg, a)
  {
  }

  lemma AckAdvances(c: Config, msgs: Msgs, m: MsgId, q: Req, x: Match)
    requires m in msgs && msgs[m].answers.Some? && msgs[m].answers.value in msgs
    requires var b := msgs[msgs[m].answers.value];
      && b.req == msgs[m].req && (IsRequest(b.typ) <==> b.origin == b.req) && b.service == q.command.service
      && Travels(msgs[m], b.target, b.initiator)
      && if IsRequest(b.typ) then Travels(b, q.command.src, q.command.dst) else Travels(b, q.command.dst, q.command.src)
    requires match Stage(msgs[m].req, q)
             case Received => AnswersRequest(msgs, m)
             case Answered => AnswersReply(msgs, m)
             case _ => false
    ensures var a := React(c, msgs, m, msgs[m], q, x); a.Reaction? && Advances(msgs, msgs[m].req, q, msgs[m], a)
  {
  }

  /** The delivery that leaves a request with two answers: a copy that no entry matched is answered although an
      earlier answer is still under way. */
  predicate AnswersAgain(c: Config, s: State, m: MsgId, x: Match) {
    && m in s.at.net && Live(s, m) && IsRequest(s.msgs[m].typ)
    && ReqOf(s, m).phase.Created? && ReqOf(s, m).token != s.msgs[m].req && Answers(ReactionTo(c, s, m, x))
  }

  lemma TokenOf(s: State, m: MsgId)
    requires Tokens(s)
    requires Live(s, m)
    ensures var q := ReqOf(s, m);
      && Tracked(s.msgs, s.at, s.sent, s.open, s.msgs[m].req, q) && Follows(s.msgs[m], m, s.at, s.sent, q)
  {
  }

  lemma ReactionAdvances(c: Config, s: State, m: MsgId, x: Match)
    requires !c.e2eOff && Tokens(s) && Names(s) && Types(c, s) && Parking(s) && !AnswersAgain(c, s, m, x)
    requires m in s.at.net && Live(s, m) && LinkSound(s.msgs, m) && Owned(s.msgs, s.reqs, s.next)
    ensures var a, q := ReactionTo(c, s, m, x), ReqOf(s, m);
      && a.Reaction? && (Ignores(q, s.msgs[m], a) || Advances(s.msgs, s.msgs[m].req, q, s.msgs[m], a))
      && (!IsRequest(s.msgs[m].typ) ==> !q.phase.Finished? && q.token == m)
  {
    var msg, q := s.msgs[m], ReqOf(s, m);
    assert s.at.net[m] > 0;
    assert TypedAt(c, s.msgs, s.reqs, m);
    TokenOf(s, m);
    if msg.answers.Some? {
      assert TypedAt(c, s.msgs, s.reqs, msg.answers.value);
      PlacedOf(s, msg.answers.value);
    }
    hide React, HandlePut, HandleAtomic, HandleGet, HandleResponse, HandlePtlAck, HandleBxiAck, Advances, Ignores,
         AllTyped, AllFollow, AllTracked, AllDeparted, Names, Kept, AcksUnwatched;
    if IsRequest(msg.typ) {
      RequestAdvances(c, s.msgs, m, msg, q, x);
    } else if IsReply(msg.typ) {
      ReplyAdvances(c, s.msgs, m, msg, q, x);
    } else {
      AckAdvances(c, s.msgs, m, q, x);
    }
  }

  // ---------------------------------------------------------------- deliveries

  /** The message that arrives is out of the network; whatever else was undelivered still is. */
  lemma StillUndelivered(s: State, m: MsgId, at': Places, k: MsgId)
    requires at'.net == s.at.net - multiset{m}
    ensures k != m ==> (Undelivered(at', s.sent, k) <==> Undelivered(s.at, s.sent, k))
    ensures Parking(s) && m in s.at.net ==> !Undelivered(at', s.sent, m)
  {
    if Parking(s) && m in s.at.net { assert s.at.net[m] > 0; }
  }

  /** No message is born in the place of an old one. */
  lemma NoNewTale(s: State, m: MsgId, a: Reaction, u: State, r: ReqId)
    requires Live(s, m) && a.Reaction? && Tale(Arrived(s, m), m, a, u) && s.next !in s.sent
    ensures r in s.sent || r in s.msgs ==> FirstStays(s.msgs, s.sent, r, u.msgs)
  {
    if r in s.msgs { assert SameTale(s.msgs, u.msgs, s.sent, r); }
  }

  /** Other requests see nothing of the reaction. */
  lemma OthersTracked(s: State, m: MsgId, a: Reaction, u: State, r: ReqId)
    requires Live(s, m) && a.Reaction? && Tale(Arrived(s, m), m, a, u) && r in s.reqs && r != s.msgs[m].req
    requires s.next !in s.sent
    requires a.gives.Some? ==> a.gives.value.id.req == s.msgs[m].req
    requires Tracked(s.msgs, s.at, s.sent, s.open, r, s.reqs[r])
    ensures Tracked(u.msgs, u.at, u.sent, u.open, r, u.reqs[r])
  {
    var q := s.reqs[r];
    if q.token in s.msgs { assert SameTale(s.msgs, u.msgs, s.sent, q.token); }
    NoNewTale(s, m, a, u, r);
    TrackedKept(s.msgs, s.at, s.sent, s.open, r, q, u.msgs, u.at, u.sent, u.open, u.reqs[r]);
  }

  /** The request of the message is tracked in its new stage. */
  lemma AdvancedTracked(s: State, m: MsgId, a: Reaction, u: State)
    requires Live(s, m) && a.Reaction? && Tale(Arrived(s, m), m, a, u) && s.next !in s.msgs && s.next !in s.sent
    requires s.next !in s.reqs
    requires var q := ReqOf(s, m);
      && Tracked(s.msgs, s.at, s.sent, s.open, s.msgs[m].req, q) && Advances(s.msgs, s.msgs[m].req, q, s.msgs[m], a)
      && m in s.sent && (!IsRequest(s.msgs[m].typ) ==> q.token == m) && s.msgs[m].req in s.sent
    ensures Tracked(u.msgs, u.at, u.sent, u.open, s.msgs[m].req, u.reqs[s.msgs[m].req])
  {
  }

  lemma IgnoredTracked(s: State, m: MsgId, a: Reaction, u: State)
    requires Live(s, m) && a.Reaction? && Tale(Arrived(s, m), m, a, u) && s.next !in s.sent
    requires Tracked(s.msgs, s.at, s.sent, s.open, s.msgs[m].req, ReqOf(s, m)) && Ignores(ReqOf(s, m), s.msgs[m], a)
    ensures Tracked(u.msgs, u.at, u.sent, u.open, s.msgs[m].req, u.reqs[s.msgs[m].req])
  {
    var r, q := s.msgs[m].req, ReqOf(s, m);
    if q.token in s.msgs { assert SameTale(s.msgs, u.msgs, s.sent, q.token); }
    NoNewTale(s, m, a, u, r);
    TrackedKept(s.msgs, s.at, s.sent, s.open, r, q, u.msgs, u.at, u.sent, u.open, u.reqs[r]);
  }

  /** Messages that were there before keep following their request. */
  lemma OldFollows(s: State, m: MsgId, a: Reaction, u: State, k: MsgId)
    requires Live(s, m) && a.Reaction? && Tale(Arrived(s, m), m, a, u) && Parking(s) && m in s.at.net
    requires Live(s, k) && Follows(s.msgs[k], k, s.at, s.sent, ReqOf(s, k))
    requires var q := ReqOf(s, m);
      && Tracked(s.msgs, s.at, s.sent, s.open, s.msgs[m].req, q)
      && (Ignores(q, s.msgs[m], a) || Advances(s.msgs, s.msgs[m].req, q, s.msgs[m], a))
      && (!IsRequest(s.msgs[m].typ) ==> q.token == m) && s.msgs[m].req in s.sent
    ensures k in u.msgs && u.msgs[k].req == s.msgs[k].req && u.msgs[k].req in u.reqs
    ensures Follows(u.msgs[k], k, u.at, u.sent, u.reqs[u.msgs[k].req])
  {
    StillUndelivered(s, m, u.at, k);
    StillUndelivered(s, m, u.at, m);
    hide Kept;
    assert SameButCount(s.msgs[k], u.msgs[k]);
  }

  /** The message sent back follows its request. */
  lemma NewFollows(s: State, m: MsgId, a: Reaction, u: State)
    requires Live(s, m) && a.Reaction? && Tale(Arrived(s, m), m, a, u) && s.next !in s.msgs && a.sends.Some?
    requires Advances(s.msgs, s.msgs[m].req, ReqOf(s, m), s.msgs[m], a) && s.msgs[m].req in s.sent
    ensures s.next in u.msgs && u.msgs[s.next].req == s.msgs[m].req
    ensures Follows(u.msgs[s.next], s.next, u.at, u.sent, u.reqs[s.msgs[m].req])
  {
    assert SameButCount(Back(s, m, a.sends.value), u.msgs[s.next]);
  }

  lemma AppliedTracked(s: State, m: MsgId, a: Reaction, u: State)
    requires Tokens(s) && Parking(s) && Live(s, m) && m in s.at.net && a.Reaction?
    requires s.next !in s.msgs && s.next !in s.reqs && m in s.sent
    requires Tale(Arrived(s, m), m, a, u) && (a.gives.Some? ==> a.gives.value.id.req == s.msgs[m].req)
    requires var q := ReqOf(s, m);
      && (Ignores(q, s.msgs[m], a) || Advances(s.msgs, s.msgs[m].req, q, s.msgs[m], a))
      && (!IsRequest(s.msgs[m].typ) ==> q.token == m) && s.msgs[m].req in s.sent
    ensures AllTracked(u.msgs, u.reqs, u.at, u.sent, u.open)
  {
    hide Kept, Tracked, Follows, Advances, Ignores, Tale, AllDeparted, AllFollow;
    NeverSent(s);
    TaleRest(Arrived(s, m), m, a, u);
    forall r | r in u.reqs ensures Tracked(u.msgs, u.at, u.sent, u.open, r, u.reqs[r]) {
      assert Tracked(s.msgs, s.at, s.sent, s.open, r, s.reqs[r]);
      if r != s.msgs[m].req {
        OthersTracked(s, m, a, u, r);
      } else if Ignores(ReqOf(s, m), s.msgs[m], a) {
        IgnoredTracked(s, m, a, u);
      } else {
        AdvancedTracked(s, m, a, u);
      }
    }
  }

  lemma IgnoresGivesNothing(q: Req, msg: Msg, a: Reaction)
    requires a.Reaction?
    ensures Ignores(q, msg, a) ==> a.gives.None? && a.sends.None?
  {
  }

  lemma AppliedFollow(s: State, m: MsgId, a: Reaction, u: State)
    requires Tokens(s) && Parking(s) && Live(s, m) && m in s.at.net && a.Reaction? && s.next !in s.msgs
    requires Owned(s.msgs, s.reqs, s.next) && Tale(Arrived(s, m), m, a, u) && m in s.sent
    requires var q := ReqOf(s, m);
      && (Ignores(q, s.msgs[m], a) || Advances(s.msgs, s.msgs[m].req, q, s.msgs[m], a))
      && (!IsRequest(s.msgs[m].typ) ==> q.token == m) && s.msgs[m].req in s.sent
    ensures AllFollow(u.msgs, u.reqs, u.at, u.sent)
  {
    hide Kept, Tracked, Follows, Advances, Ignores, Tale, AllDeparted;
    TokenOf(s, m);
    IgnoresGivesNothing(ReqOf(s, m), s.msgs[m], a);
    forall k | k in u.msgs && u.msgs[k].req in u.reqs
      ensures Follows(u.msgs[k], k, u.at, u.sent, u.reqs[u.msgs[k].req])
    {
      TaleMsgs(Arrived(s, m), m, a, u, k);
      if k in s.msgs {
        TokenOf(s, k);
        OldFollows(s, m, a, u, k);
      } else {
        NewFollows(s, m, a, u);
      }
    }
  }

  /** Handlers charge nothing. */
  lemma AppliedTokens(s: State, m: MsgId, a: Reaction, u: State)
    requires Tokens(s) && Parking(s) && Live(s, m) && m in s.at.net && a.Reaction?
    requires Owned(s.msgs, s.reqs, s.next) && s.next !in s.msgs && s.next !in s.reqs && m in s.sent
    requires Tale(Arrived(s, m), m, a, u) && (a.gives.Some? ==> a.gives.value.id.req == s.msgs[m].req)
    requires var q := ReqOf(s, m);
      && (Ignores(q, s.msgs[m], a) || Advances(s.msgs, s.msgs[m].req, q, s.msgs[m], a))
      && (!IsRequest(s.msgs[m].typ) ==> q.token == m) && s.msgs[m].req in s.sent
    ensures Tokens(u)
  {
    AppliedTracked(s, m, a, u);
    AppliedFollow(s, m, a, u);
    TaleRest(Arrived(s, m), m, a, u);
    hide AllTracked, AllFollow, Tale, Kept, Owned, Departed;
    DepartedKept(s.ended, s.open, u.open);
  }

  // ---------------------------------------------------------------- what destructors leave alone

  /** What an unfinished request still depends on is not destroyed. */
  lemma TokenSurvives(u: State, t: State, r: ReqId)
    requires Parking(u) && Shrunk(u.msgs, t.msgs, u.reqs, t.reqs, u.at) && SameRest(u, t) && RefInv(t)
    requires r in u.reqs && TokenMoves(u.msgs, u.at, u.sent, r, u.reqs[r])
    ensures Stage(r, u.reqs[r]).Received? || Stage(r, u.reqs[r]).Answered? ==>
              TokenStays(u.msgs, u.at, u.sent, u.reqs[r].token, t.msgs, t.at, t.sent) && r in t.reqs
  {
    if Stage(r, u.reqs[r]).Received? || Stage(r, u.reqs[r]).Answered? {
      var m := u.reqs[r].token;
      UndeliveredHeld(u, m);
      assert Survives(u.msgs, t.msgs, u.at, m) && LinkSound(t.msgs, m);
      if u.msgs[m].answers.Some? { assert Survives(u.msgs, t.msgs, u.at, u.msgs[m].answers.value); }
    }
    hide Kept, RequestsExact, HeldBy, CountExact, Housed;
  }

  lemma FirstSurvives(u: State, t: State, r: ReqId)
    requires Parking(u) && Shrunk(u.msgs, t.msgs, u.reqs, t.reqs, u.at) && SameRest(u, t) && RefInv(t)
    requires r in u.sent || (r in u.msgs && u.msgs[r].req == r)
    ensures FirstStays(u.msgs, u.sent, r, t.msgs) && (r !in u.sent ==> r in t.reqs)
  {
    if r in u.msgs {
      if r !in u.sent { UndeliveredHeld(u, r); }
      assert Survives(u.msgs, t.msgs, u.at, r);
    }
    hide Kept, RequestsExact, HeldBy, CountExact, Housed;
  }

  lemma ShrunkTracked(u: State, t: State, r: ReqId)
    requires Parking(u) && Shrunk(u.msgs, t.msgs, u.reqs, t.reqs, u.at) && SameRest(u, t) && RefInv(t)
    requires r in u.reqs && Tracked(u.msgs, u.at, u.sent, u.open, r, u.reqs[r])
    ensures r in t.reqs ==> Tracked(t.msgs, t.at, t.sent, t.open, r, t.reqs[r])
    ensures r !in t.reqs ==> r in u.sent && Departed(u.open, r, u.reqs[r])
  {
    hide Kept, RefInv, Survives, TokenStays, TokenFits, FirstStays;
    TokenSurvives(u, t, r);
    FirstSurvives(u, t, r);
    if r in t.reqs {
      NoNewReplySelf(u.open, r);
      TrackedKept(u.msgs, u.at, u.sent, u.open, r, u.reqs[r], t.msgs, t.at, t.sent, t.open, t.reqs[r]);
    }
  }

  lemma ShrunkFollows(u: State, t: State, k: MsgId)
    requires Shrunk(u.msgs, t.msgs, u.reqs, t.reqs, u.at) && SameRest(u, t) && k in t.msgs && t.msgs[k].req in t.reqs
    ensures k in u.msgs && u.msgs[k].req in u.reqs
    ensures Follows(u.msgs[k], k, u.at, u.sent, u.reqs[u.msgs[k].req]) ==>
            Follows(t.msgs[k], k, t.at, t.sent, t.reqs[t.msgs[k].req])
  {
    assert Survives(u.msgs, t.msgs, u.at, k);
  }

  lemma TokensShrunk(u: State, t: State)
    requires Tokens(u) && Parking(u) && Settles(u, t)
    ensures Tokens(t)
  {
    hide Kept, RefInv, Shrunk, Tracked, Follows, Departed, SameButRefs;
    ShrunkKeys(u, t);
    forall r | r in u.reqs
      ensures r in t.reqs ==> Tracked(t.msgs, t.at, t.sent, t.open, r, t.reqs[r])
      ensures r !in t.reqs ==> Departed(u.open, r, u.reqs[r])
    {
      assert Tracked(u.msgs, u.at, u.sent, u.open, r, u.reqs[r]);
      ShrunkTracked(u, t, r);
    }
    forall k | k in t.msgs && t.msgs[k].req in t.reqs
      ensures Follows(t.msgs[k], k, t.at, t.sent, t.reqs[t.msgs[k].req])
    {
      ShrunkFollows(u, t, k);
      assert Follows(u.msgs[k], k, u.at, u.sent, u.reqs[u.msgs[k].req]);
    }
    forall r | r in t.ended ensures Departed(t.open, r, t.ended[r]) {
      if r in u.reqs && r !in t.reqs { DepartedSame(u.open, r, u.reqs[r], t.ended[r]); }
    }
  }

  lemma DepartedSame(open: Ledger, r: ReqId, q: Req, q': Req)
    requires Departed(open, r, q) && SameButRefs(q, q')
    ensures Departed(open, r, q')
  {
  }

  lemma ShrunkKeys(u: State, t: State)
    requires Shrunk(u.msgs, t.msgs, u.reqs, t.reqs, u.at)
    ensures t.msgs.Keys <= u.msgs.Keys && t.reqs.Keys <= u.reqs.Keys
  {
  }
}
