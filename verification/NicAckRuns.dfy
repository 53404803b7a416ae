/** Quick ACKs over whole runs: whatever else is in flight, retransmitted or delivered twice, an acknowledged
    Put or Atomic that is finished has shown its initiator the same events, in the same order, in both modes. */
module NicAckRuns {
  import opened Wire
  import opened Queues
  import opened FlowControl
  import opened Nic
  import opened NicRefs
  import opened NicParking
  import opened NicRefRuns
  import opened NicTypes
  import opened NicOnce
  import opened NicLedger
  import opened NicFrames
  import opened NicCharges
  import opened NicExactRuns
  import opened NicCredits
  import opened NicCreditRuns
  import NicStories

  // ---------------------------------------------------------------- what the initiator should see

  /** The request gets a Portals ACK from the entry it matched. */
  predicate Acked(q: Req) {
    && PutLike(q.command.typ) && !q.command.ackReq.NoAckReq?
    && q.matched.Some? && q.matched.value.Matched? && !q.matched.value.ackDisable
  }

  /** SEND once it is issued, then the ACK once the request is answered. */
  predicate Tells(q: Req) {
    PutLike(q.command.typ) ==>
      (q.phase.Created? ==> q.matched.None?) &&
      var sends := NicStories.SendsOf(q.command);
      if Rank(q.phase) <= Rank(Received) then q.initiatorLog == if q.sendIssued then sends else []
      else Acked(q) ==> q.sendIssued && q.initiatorLog == sends + NicStories.AcksOf(q.command, NiOk, q.matched)
  }

  /** A received request that gets a Portals ACK waits for that ACK, which reports no failure. */
  predicate WaitsForAck(msgs: Msgs, q: Req) {
    q.phase.Received? && Acked(q) && q.token in msgs ==> msgs[q.token].typ.PtlAck? && msgs[q.token].fail.NiOk?
  }

  ghost predicate AllTell(msgs: Msgs, reqs: Reqs) {
    forall r {:trigger reqs[r]} :: r in reqs ==> Tells(reqs[r]) && WaitsForAck(msgs, reqs[r])
  }

  /** The last records of deleted requests tell the same. */
  ghost predicate EndedTell(ended: Reqs) {
    forall r {:trigger ended[r]} :: r in ended ==> Tells(ended[r])
  }

  ghost predicate Told(s: State) {
    AllTell(s.msgs, s.reqs) && EndedTell(s.ended)
  }

  ghost predicate TellSound(c: Config, s: State) {
    CreditSound(c, s) && Told(s)
  }

  // ---------------------------------------------------------------- one request

  lemma SendTells(q: Req)
    requires Tells(q)
    ensures Tells(MaybeIssueSend(q)) && Tells(MaybeIssueGet(q))
    ensures Acked(MaybeIssueSend(q)) == Acked(q) && Acked(MaybeIssueGet(q)) == Acked(q)
  {
    hide NicStories.SendsOf, NicStories.AcksOf;
    SendLog(q);
  }

  lemma SendLog(q: Req)
    ensures !q.sendIssued && q.initiatorLog == [] ==> MaybeIssueSend(q).initiatorLog == NicStories.SendsOf(q.command)
  {
  }

  /** SEND and ACK on a request that moves past RECEIVED. */
  lemma AckTells(q: Req, p: Phase)
    requires Tells(q.(phase := Received)) && Rank(p) >= Rank(Answered)
    ensures Tells(IssueAck(MaybeIssueSend(q.(phase := p)), NiOk))
  {
    SendLog(q.(phase := p));
    hide NicStories.SendsOf;
  }

  /** What a reaction may do to the story the initiator is told. */
  ghost predicate KeepsTale(a: Reaction)
    requires a.Reaction?
  {
    && Tells(a.req)
    && (a.req.phase.Received? && Acked(a.req) && a.sends.Some? ==>
          a.sends.value.typ.PtlAck? && a.sends.value.fail.NiOk?)
  }

  lemma PutTells(c: Config, m: MsgId, msg: Msg, q: Req, x: Match)
    requires !c.e2eOff && Tells(q) && PutLike(q.command.typ)
    ensures KeepsTale(HandlePut(c, m, msg, q, x)) && KeepsTale(HandleAtomic(c, m, msg, q, x))
  {
    if q.phase.Created? && x.Matched? {
      var q1 := PutEvent(Recorded(q, m, x));
      assert Tells(q1);
      AckTells(q1, Finished);
      hide Tells, PutEvent, Recorded, IssueAck, MaybeIssueSend;
    }
  }

  lemma ReplyTells(c: Config, msg: Msg, q: Req)
    requires Tells(q) && (q.phase.Received? && Acked(q) ==> msg.fail.NiOk?)
    ensures !PutLike(q.command.typ) ==> KeepsTale(HandleResponse(c, msg, q))
    ensures msg.typ.PtlAck? ==> KeepsTale(HandlePtlAck(c, msg, q))
  {
    if q.phase.Received? && Acked(q) {
      AckTells(q, Answered);
    }
    hide NicStories.SendsOf, NicStories.AcksOf;
  }

  lemma ConfirmationTells(msgs: Msgs, msg: Msg, q: Req)
    requires Tells(q) && msg.answers.Some? && msg.answers.value in msgs && (q.phase.Received? ==> !Acked(q))
    ensures KeepsTale(HandleBxiAck(msgs, msg, q))
  {
    hide NicStories.SendsOf, NicStories.AcksOf;
  }

  lemma ReactionTells(c: Config, s: State, m: MsgId, x: Match)
    requires !c.e2eOff && TellSound(c, s) && m in s.at.net && !AnswersAgain(c, s, m, x) && Live(s, m)
    ensures ReactionTo(c, s, m, x).Reaction? && KeepsTale(ReactionTo(c, s, m, x))
  {
    hide Tells, KeepsTale, Kept, Acked, CreditSound, React, Names, Tokens, Sound;
    CreditParts(c, s);
    DeliveryAdvances(c, s, m, x);
    var msg, q := s.msgs[m], ReqOf(s, m);
    assert Tells(q) && WaitsForAck(s.msgs, q);
    assert TypedAt(c, s.msgs, s.reqs, m);
    hide HandlePut, HandleAtomic, HandleGet, HandleResponse, HandlePtlAck, HandleBxiAck, Advances, Ignores,
         AllTyped, AllTell;
    ReactionOf(c, s, m, x);
    match msg.typ
    case PtlPut => PutTells(c, m, msg, q, x);
    case PtlAtomic => PutTells(c, m, msg, q, x);
    case PtlGet => GetTells(m, q, x, GetResponse);
    case PtlFetchAtomic => GetTells(m, q, x, FetchAtomicResponse);
    case GetResponse => ReplyTells(c, msg, q);
    case FetchAtomicResponse => ReplyTells(c, msg, q);
    case PtlAck => ReplyTells(c, msg, q);
    case E2eAck => ConfirmationTells(s.msgs, msg, q);
  }

  lemma GetTells(m: MsgId, q: Req, x: Match, response: MsgType)
    requires !PutLike(q.command.typ) && !response.PtlAck?
    ensures KeepsTale(HandleGet(m, q, x, response))
  {
  }

  /** Which handler takes which message. */
  lemma ReactionOf(c: Config, s: State, m: MsgId, x: Match)
    requires Live(s, m)
    ensures var msg, q, a := s.msgs[m], ReqOf(s, m), ReactionTo(c, s, m, x);
      match msg.typ
      case PtlPut => a == HandlePut(c, m, msg, q, x)
      case PtlAtomic => a == HandleAtomic(c, m, msg, q, x)
      case PtlGet => a == HandleGet(m, q, x, GetResponse)
      case PtlFetchAtomic => a == HandleGet(m, q, x, FetchAtomicResponse)
      case PtlAck => a == HandlePtlAck(c, msg, q)
      case E2eAck => a == HandleBxiAck(s.msgs, msg, q)
      case _ => a == HandleResponse(c, msg, q)
  {
    hide HandlePut, HandleAtomic, HandleGet, HandleResponse, HandlePtlAck, HandleBxiAck;
  }

  // ---------------------------------------------------------------- steps

  /** What the story of a request is judged by. */
  predicate SameScene(q: Req, q': Req) {
    q'.command == q.command && q'.phase == q.phase && q'.token == q.token && q'.matched == q.matched
  }

  ghost predicate StoriesKept(s: State, t: State) {
    forall r {:trigger t.reqs[r]} :: r in t.reqs ==>
      Tells(t.reqs[r]) && if r in s.reqs then SameScene(s.reqs[r], t.reqs[r]) else t.reqs[r].phase.Created?
  }

  ghost predicate KindsKept(s: State, t: State) {
    forall m {:trigger t.msgs[m]} :: m in t.msgs ==>
      m in s.msgs ==> t.msgs[m].typ == s.msgs[m].typ && t.msgs[m].fail == s.msgs[m].fail
  }

  /** A token is live while its request waits at the target, or never comes back. */
  ghost predicate TokensLast(s: State, t: State) {
    forall r {:trigger s.reqs[r]} :: r in s.reqs && s.reqs[r].phase.Received? ==>
      s.reqs[r].token in s.msgs || s.reqs[r].token !in t.msgs
  }

  lemma TellKept(s: State, t: State)
    requires AllTell(s.msgs, s.reqs)
    requires StoriesKept(s, t) && KindsKept(s, t) && TokensLast(s, t)
    ensures AllTell(t.msgs, t.reqs)
  {
    hide Tells;
    forall r | r in t.reqs ensures Tells(t.reqs[r]) && WaitsForAck(t.msgs, t.reqs[r]) {
      if r in s.reqs { assert SameScene(s.reqs[r], t.reqs[r]); TellsOf(s, r); }
    }
  }

  lemma TokensLive(c: Config, s: State)
    requires CreditSound(c, s)
    ensures forall r {:trigger r in s.reqs} :: r in s.reqs && s.reqs[r].phase.Received? ==> s.reqs[r].token in s.msgs
  {
    hide NameSound, Balanced, AllFollow, AllDeparted;
    forall r | r in s.reqs && s.reqs[r].phase.Received? ensures s.reqs[r].token in s.msgs {
      assert Tracked(s.msgs, s.at, s.sent, s.open, r, s.reqs[r]);
    }
  }

  /** What a destructor leaves tells the same, and so does what it deletes. */
  lemma SettledTell(u: State, t: State)
    requires Told(u) && Settles(u, t)
    ensures Told(t)
  {
    hide AllTell, EndedTell, Shrunk, Buried, RefInv;
    ShrunkTell(u, t);
    BuriedTell(u, t);
  }

  lemma BuriedTell(u: State, t: State)
    requires AllTell(u.msgs, u.reqs) && EndedTell(u.ended) && Buried(u.reqs, t.reqs, u.ended, t.ended)
    ensures EndedTell(t.ended)
  {
    hide NicStories.SendsOf, NicStories.AcksOf;
    forall r | r in t.ended ensures Tells(t.ended[r]) {
      if r in u.reqs && r !in t.reqs {
        TellsOf(u, r);
        assert SameButRefs(u.reqs[r], t.ended[r]);
      } else {
        assert t.ended[r] == u.ended[r];
      }
    }
  }

  lemma ShrunkTell(u: State, t: State)
    requires AllTell(u.msgs, u.reqs) && Shrunk(u.msgs, t.msgs, u.reqs, t.reqs, u.at)
    ensures AllTell(t.msgs, t.reqs)
  {
    forall m | m in t.msgs ensures m in u.msgs && SameButCount(u.msgs[m], t.msgs[m]) {
      assert Survives(u.msgs, t.msgs, u.at, m);
    }
    hide HeldBy, NicStories.SendsOf, NicStories.AcksOf, Survives;
    forall r | r in t.reqs ensures r in u.reqs && SameButRefs(u.reqs[r], t.reqs[r]) && Tells(t.reqs[r]) {
      TellsOf(u, r);
    }
    hide AllTell, Tells, WaitsForAck, Shrunk;
    TellKept(u, t);
  }

  lemma AppliedTell(s: State, m: MsgId, a: Reaction, u: State)
    requires Live(s, m) && a.Reaction? && s.next !in s.msgs
    requires AllTell(s.msgs, s.reqs) && KeepsTale(a) && Tale(s, m, a, u)
    requires SameEvents(a.req, u.reqs[s.msgs[m].req]) && TokensLast(s, u)
    requires a.req.phase.Received? && a.sends.None? ==> a.req.token in s.msgs && WaitsForAck(s.msgs, a.req)
    ensures AllTell(u.msgs, u.reqs)
  {
    hide TokensLast, AllTell, Tells, WaitsForAck, KeepsTale;
    var r0 := s.msgs[m].req;
    AppliedKinds(s, m, a, u);
    AppliedStory(s, m, a, u);
    hide Tale;
    forall r | r in u.reqs ensures Tells(u.reqs[r]) && WaitsForAck(u.msgs, u.reqs[r]) {
      if r != r0 {
        TellsOf(s, r);
        StillWaits(s, u, r);
      }
    }
    AllTold(u.msgs, u.reqs);
  }

  lemma AllTold(msgs: Msgs, reqs: Reqs)
    requires forall r {:trigger reqs[r]} :: r in reqs ==> Tells(reqs[r]) && WaitsForAck(msgs, reqs[r])
    ensures AllTell(msgs, reqs)
  {
  }

  lemma StillWaits(s: State, t: State, r: ReqId)
    requires TokensLast(s, t) && r in s.reqs && WaitsForAck(s.msgs, s.reqs[r])
    requires forall k {:trigger t.msgs[k]} :: k in s.msgs && k in t.msgs ==> SameButCount(s.msgs[k], t.msgs[k])
    ensures WaitsForAck(t.msgs, s.reqs[r])
  {
    hide Acked;
  }

  /** Messages after a handler, one more at most. */
  lemma AppliedKinds(s: State, m: MsgId, a: Reaction, u: State)
    requires Live(s, m) && a.Reaction? && s.next !in s.msgs && Tale(s, m, a, u) && KeepsTale(a)
    ensures u.reqs.Keys <= s.reqs.Keys + {s.msgs[m].req}
    ensures forall r :: r in u.reqs && r != s.msgs[m].req ==> r in s.reqs && u.reqs[r] == s.reqs[r]
    ensures forall k {:trigger u.msgs[k]} :: k in s.msgs && k in u.msgs ==> SameButCount(s.msgs[k], u.msgs[k])
  {
    hide Tells, Acked;
  }

  /** The request the handler has written. */
  lemma AppliedStory(s: State, m: MsgId, a: Reaction, u: State)
    requires Live(s, m) && a.Reaction? && s.next !in s.msgs && Tale(s, m, a, u) && KeepsTale(a)
    requires SameEvents(a.req, u.reqs[s.msgs[m].req])
    requires a.req.phase.Received? && a.sends.None? ==> a.req.token in s.msgs && WaitsForAck(s.msgs, a.req)
    ensures var q := u.reqs[s.msgs[m].req]; Tells(q) && WaitsForAck(u.msgs, q)
  {
    hide NicStories.SendsOf, NicStories.AcksOf;
  }

  lemma DeliverTell(c: Config, s: State, m: MsgId, x: Match)
    requires !c.e2eOff && TellSound(c, s) && !AnswersAgain(c, s, m, x)
    ensures Told(Deliver(c, s, m, x))
  {
    hide CreditSound, AllTell, EndedTell, React, Apply, Unref, Settles, Tale, KeepsTale, Kept, Exact, Types, Names,
         Tokens, Owned;
    if m in s.at.net {
      CreditParts(c, s);
      DeliverParts(c, s, m, x);
      var s1, a := Arrived(s, m), ReactionTo(c, s, m, x);
      var u := Apply(c, s1, m, a);
      ReactionTells(c, s, m, x);
      CleanTale(c, s, m, x);
      ApplyShape(c, s1, m, a);
      TokensLive(c, s);
      AppliedTell(s1, m, a, u);
      TaleRest(s1, m, a, u);
      SettledTell(u, Deliver(c, s, m, x));
    }
  }

  /** The shape of the reaction applied, and that a request which stays RECEIVED keeps its token. */
  lemma CleanTale(c: Config, s: State, m: MsgId, x: Match)
    requires !c.e2eOff && TellSound(c, s) && m in s.at.net && !AnswersAgain(c, s, m, x) && Live(s, m)
    ensures var s1, a := Arrived(s, m), ReactionTo(c, s, m, x);
      && a.Reaction? && Tale(s1, m, a, Apply(c, s1, m, a))
      && (a.req.phase.Received? && a.sends.None? ==> a.req.token in s.msgs && WaitsForAck(s.msgs, a.req))
  {
    hide AllTell, EndedTell, React, Apply, Tale, Kept, Types, Tracked, Follows, CreditSound, Names, Tokens,
         SettlesAgain, Balanced, NameSound;
    NamedSound(c, s);
    CleanSettlesOnce(c, s, DeliverStep(m, x));
    ReturnExact(c, s, m, x);
    DeliveryTale(c, s, m, x);
    DeliveryAdvances(c, s, m, x);
    TokensLive(c, s);
    TellsOf(s, s.msgs[m].req);
  }

  lemma TellsOf(s: State, r: ReqId)
    requires AllTell(s.msgs, s.reqs) && r in s.reqs
    ensures Tells(s.reqs[r]) && WaitsForAck(s.msgs, s.reqs[r])
  {
  }

  lemma TokensOf(c: Config, s: State, s1: State, t: State)
    requires CreditSound(c, s) && s1.msgs == s.msgs && s1.reqs == s.reqs
    ensures TokensLast(s1, t)
  {
    hide CreditSound;
    TokensLive(c, s);
  }

  /** Only request `r0` is written. */
  lemma StoriesFrom(s: State, t: State, r0: ReqId)
    requires AllTell(s.msgs, s.reqs) && r0 in t.reqs && t.reqs == s.reqs[r0 := t.reqs[r0]] && Tells(t.reqs[r0])
    requires if r0 in s.reqs then SameScene(s.reqs[r0], t.reqs[r0]) else t.reqs[r0].phase.Created?
    ensures StoriesKept(s, t)
  {
    hide Tells;
    forall r | r in t.reqs
      ensures Tells(t.reqs[r]) && if r in s.reqs then SameScene(s.reqs[r], t.reqs[r]) else t.reqs[r].phase.Created?
    {
      if r != r0 { TellsOf(s, r); }
    }
  }

  lemma CountlessTells(q: Req, n: int, log: seq<TargetEvent>)
    requires Tells(q)
    ensures Tells(q.(msgRefs := n)) && Tells(q.(targetLog := log))
  {
    hide NicStories.SendsOf, NicStories.AcksOf;
  }

  /** A message is made for a request that is new, or tells what it told. */
  lemma SpawnTell(s: State, p: Port, msg: Msg, q: Req)
    requires AllTell(s.msgs, s.reqs) && s.next !in s.msgs && Tells(q)
    requires if msg.req in s.reqs then SameScene(s.reqs[msg.req], q) else q.phase.Created?
    ensures StoriesKept(s, Spawn(s, p, msg, q)) && KindsKept(s, Spawn(s, p, msg, q))
  {
    hide Tells, StoriesKept;
    CountlessTells(q, q.msgRefs + 1, []);
    StoriesFrom(s, Spawn(s, p, msg, q), msg.req);
  }

  lemma IssueTell(c: Config, s: State, k: Command)
    requires TellSound(c, s)
    ensures Told(Issue(s, k))
  {
    hide CreditSound, AllTell, EndedTell, StoriesKept, KindsKept, TokensLast, Tells, Sound, Names, Types, Tokens, Kept;
    CreditParts(c, s);
    var ni := Interface(k.src, k.srcPid);
    if CqFree(s, ni) > 0 {
      var s1 := s.(cq := s.cq[ni := CqFree(s, ni) - 1]);
      NewTells(k, s.next);
      SpawnTell(s1, Port(k.src, RequestVn(k.service)),
                FirstMessage(k, s.next), NewRequest(k, s.next));
      TokensOf(c, s, s1, Issue(s, k));
      TellKept(s1, Issue(s, k));
    }
  }

  lemma NewTells(k: Command, r: ReqId)
    ensures Tells(NewRequest(k, r)) && NewRequest(k, r).phase.Created?
  {
  }

  lemma ConsumeTell(c: Config, s: State, m: MsgId)
    requires TellSound(c, s)
    ensures Told(ConsumeHeader(s, m))
  {
    hide CreditSound, AllTell, EndedTell, Unref, Settles, Exact, Kept, Sound, Types, Names, Tokens;
    CreditParts(c, s);
    if m in s.at.uh {
      ConsumeParts(s, m);
      var s1 := s.(at := s.at.(uh := s.at.uh - multiset{m}));
      TokensOf(c, s, s, Noted(s1, m));
      NotedTell(s, s1, m);
      TellKept(s, Noted(s1, m));
      SettledTell(Noted(s1, m), ConsumeHeader(s, m));
    }
  }

  lemma NotedTell(s: State, s1: State, m: MsgId)
    requires AllTell(s.msgs, s.reqs) && Live(s1, m) && s1.msgs == s.msgs && s1.reqs == s.reqs
    ensures StoriesKept(s, Noted(s1, m)) && KindsKept(s, Noted(s1, m))
  {
    hide Tells, StoriesKept;
    var r := s.msgs[m].req;
    TellsOf(s, r);
    CountlessTells(s.reqs[r], 0, s.reqs[r].targetLog + [OverflowEvent]);
    StoriesFrom(s, Noted(s1, m), r);
  }

  lemma SameTell(s: State, t: State)
    requires t.msgs == s.msgs && t.reqs == s.reqs && AllTell(s.msgs, s.reqs)
    ensures AllTell(t.msgs, t.reqs)
  {
  }

  lemma RetransmitTell(c: Config, s: State, n: Nid, m: MsgId)
    requires AllTell(s.msgs, s.reqs) && Live(s, m) && s.next !in s.msgs
    ensures StoriesKept(s, Retransmit(s, n, m)) && KindsKept(s, Retransmit(s, n, m))
    ensures Retransmit(s, n, m).ended == s.ended
  {
    hide Tells, StoriesKept;
    var r := s.msgs[m].req;
    TellsOf(s, r);
    CountlessTells(s.reqs[r], s.reqs[r].msgRefs + 1, []);
    StoriesFrom(s, Retransmit(s, n, m), r);
  }

  lemma TimeoutTell(c: Config, s: State, n: Nid)
    requires TellSound(c, s) && NicCreditRuns.RepliesOnce(c, s, n)
    ensures Told(Timeout(c, s, n))
  {
    hide CreditSound, AllTell, EndedTell, Unref, Settles, Exact, Kept, Sound, Types, Names, Tokens, Retransmit, Taken,
         LinkSound, StoriesKept, KindsKept, TokensLast;
    CreditParts(c, s);
    if Q(s.at.e2e, n) != [] {
      var m, s1, t := Q(s.at.e2e, n)[0], Expired(s, n), Timeout(c, s, n);
      TimeoutParts(c, s, n);
      TakenLive(s1, m);
      ExpiredTypes(c, s, n);
      RetryBound(c, s1, m);
      if Retries(c, s1.msgs[m], ReqOf(s1, m)) {
        var u := Retransmit(s1, n, m);
        TokensOf(c, s, s1, u);
        RetransmitTell(c, s1, n, m);
        TellKept(s1, u);
        SettledTell(u, t);
      } else {
        SettledTell(s1, t);
      }
    }
  }

  /** Leaving may raise SEND; nothing else of a request changes. */
  lemma DispatchTell(c: Config, s: State, u: State, n: Nid, m: MsgId)
    requires AllTell(s.msgs, s.reqs) && Live(s, m) && u.msgs == s.msgs && u.reqs == s.reqs
    ensures StoriesKept(s, Dispatch(c, u, n, m)) && KindsKept(s, Dispatch(c, u, n, m))
  {
    SendTells(ReqOf(s, m));
    TellsOf(s, s.msgs[m].req);
    hide Tells, StoriesKept;
    StoriesFrom(s, Dispatch(c, u, n, m), s.msgs[m].req);
  }

  lemma TransmitTell(c: Config, s: State, p: Port)
    requires !c.e2eOff && TellSound(c, s)
    ensures Told(Transmit(c, s, p))
  {
    hide CreditSound, AllTell, EndedTell, Exact, Kept, Sound, Types, Names, Tokens, Dispatch, CheckFlowctrl,
         ChargedChannel, StoriesKept, KindsKept, TokensLast, Owned;
    CreditParts(c, s);
    if Q(s.at.tx, p) != [] {
      HeadUnsent(s, p);
      var m := Q(s.at.tx, p)[0];
      LiveOwned(s, m);
      var msg, q, popped, t := s.msgs[m], ReqOf(s, m), Popped(s, p), Transmit(c, s, p);
      TokensOf(c, s, s, t);
      if !NeedsCredit(c, msg) {
        DispatchTell(c, s, popped, p.nid, m);
        TellKept(s, t);
      } else {
        match CheckFlowctrl(c, FlowOf(s, p.nid), ChargedChannel(msg, q))
        case Granted(f) =>
          if f.entries > 0 {
            DispatchTell(c, s, ChargeFor(popped, p.nid, f, msg, q), p.nid, m);
            TellKept(s, t);
          }
        case _ => SameTell(s, t);
      }
    }
  }

  // ---------------------------------------------------------------- runs

  lemma NextTell(c: Config, s: State, t: Step)
    requires !c.e2eOff && TellSound(c, s) && Clean(c, s, t)
    ensures TellSound(c, Next(c, s, t))
  {
    hide CreditSound, Told, Issue, Transmit, Deliver, Timeout, ConsumeHeader, AnswersAgain, NicCreditRuns.RepliesOnce;
    NextCredits(c, s, t);
    match t
    case IssueStep(k) => IssueTell(c, s, k);
    case TransmitStep(p) => TransmitTell(c, s, p);
    case DeliverStep(m, x) => DeliverTell(c, s, m, x);
    case TimeoutStep(n) => TimeoutTell(c, s, n);
    case HeaderStep(m) => ConsumeTell(c, s, m);
  }

  lemma {:induction false} RunTell(c: Config, steps: seq<Step>)
    requires !c.e2eOff && CleanRun(c, steps)
    ensures TellSound(c, Run(c, steps))
  {
    hide CreditSound, Clean;
    if steps == [] {
      RunCredits(c, steps);
    } else {
      hide TellSound;
      RunTell(c, steps[..|steps| - 1]);
      NextTell(c, Run(c, steps[..|steps| - 1]), steps[|steps| - 1]);
    }
  }

  lemma RecordTells(s: State, r: ReqId)
    requires Told(s) && Issued(s, r)
    ensures Tells(RecordOf(s, r))
  {
    hide Tells, WaitsForAck;
  }

  /** In either mode, a Put or Atomic past RECEIVED that its entry acknowledges, live or deleted, has shown the
      initiator SEND and then one successful ACK for the length and offset it was given, and nothing else. */
  lemma AcknowledgedPutTells(c: Config, steps: seq<Step>, r: ReqId)
    requires !c.e2eOff && CleanRun(c, steps) && Issued(Run(c, steps), r)
    requires Rank(RecordOf(Run(c, steps), r).phase) > Rank(Received) && Acked(RecordOf(Run(c, steps), r))
    ensures var q := RecordOf(Run(c, steps), r);
      q.sendIssued && q.initiatorLog == NicStories.SendsOf(q.command) + NicStories.AcksOf(q.command, NiOk, q.matched)
  {
    hide CleanRun, Run, CreditSound, NicStories.SendsOf, NicStories.AcksOf, Told;
    RunTell(c, steps);
    RecordTells(Run(c, steps), r);
  }

  /** Quick ACKs refine the full exchange: a request finished in one mode has shown its initiator what the
      same request finished in the other mode has shown its own, whatever else the two machines carry, and
      neither holds a credit any more. Either of them may be deleted by then. */
  lemma QuickAcksRefine(quick: Config, full: Config, steps: seq<Step>, steps': seq<Step>, r: ReqId, r': ReqId)
    requires quick.quickAcks && !full.quickAcks && !quick.e2eOff && !full.e2eOff
    requires CleanRun(quick, steps) && CleanRun(full, steps')
    requires Issued(Run(quick, steps), r) && Issued(Run(full, steps'), r')
    requires var q, q' := RecordOf(Run(quick, steps), r), RecordOf(Run(full, steps'), r');
      && q.phase.Finished? && q'.phase.Finished? && Acked(q) && q'.command == q.command && q'.matched == q.matched
    ensures RecordOf(Run(quick, steps), r).initiatorLog == RecordOf(Run(full, steps'), r').initiatorLog
    ensures forall payer ::
      ChargeId(r, payer) !in Run(quick, steps).open && ChargeId(r', payer) !in Run(full, steps').open
  {
    hide CleanRun, Run, NicStories.SendsOf, NicStories.AcksOf;
    AcknowledgedPutTells(quick, steps, r);
    AcknowledgedPutTells(full, steps', r');
    FinishedHoldsNothing(quick, steps, r);
    FinishedHoldsNothing(full, steps', r');
  }

  lemma FinishedHoldsNothing(c: Config, steps: seq<Step>, r: ReqId)
    requires !c.e2eOff && CleanRun(c, steps) && Issued(Run(c, steps), r) && RecordOf(Run(c, steps), r).phase.Finished?
    ensures forall payer :: ChargeId(r, payer) !in Run(c, steps).open
  {
    hide CleanRun, Run;
    forall payer | ChargeId(r, payer) in Run(c, steps).open ensures false {
      ChargesBelongToRequests(c, steps, ChargeId(r, payer));
    }
  }
}
