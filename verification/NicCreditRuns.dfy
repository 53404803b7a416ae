/** Credits are conserved in every clean run, which therefore never aborts; and which credits are lost. */
module NicCreditRuns {
  import opened Wire
  import opened Queues
  import opened FlowControl
  import opened Nic
  import opened NicRefs
  import opened NicParking
  import opened NicRefRuns
  import opened NicTypes
  import opened NicLedger
  import opened NicFrames
  import opened NicCharges
  import opened NicExactRuns
  import opened NicCredits

  /** A reply whose timer expires was acknowledged, or is given up: it is not sent again. */
  predicate RepliesOnce(c: Config, s: State, n: Nid) {
    Q(s.at.e2e, n) != [] && Live(s, Q(s.at.e2e, n)[0]) && IsReply(s.msgs[Q(s.at.e2e, n)[0]].typ) ==>
      !Retries(c, s.msgs[Q(s.at.e2e, n)[0]], ReqOf(s, Q(s.at.e2e, n)[0]))
  }

  /** The two ways in which a request could get two replies. */
  predicate NotAnsweredTwice(c: Config, s: State, t: Step) {
    t.DeliverStep? ==> !AnswersAgain(c, s, t.msg, t.found)
  }

  predicate NotRepeated(c: Config, s: State, t: Step) {
    t.TimeoutStep? ==> RepliesOnce(c, s, t.node)
  }

  predicate Clean(c: Config, s: State, t: Step) {
    NotAnsweredTwice(c, s, t) && NotRepeated(c, s, t)
  }

  /** No request is answered twice, and only requests are retransmitted. Requests need not find an entry. */
  predicate CleanRun(c: Config, steps: seq<Step>) {
    steps == [] || (CleanRun(c, steps[..|steps| - 1]) && Clean(c, Run(c, steps[..|steps| - 1]), steps[|steps| - 1]))
  }

  ghost predicate CreditSound(c: Config, s: State) {
    NameSound(c, s) && Fine(c, s) && Tokens(s)
  }

  lemma CreditParts(c: Config, s: State)
    requires CreditSound(c, s)
    ensures Sound(s) && s.fault.NoFault? && Owned(s.msgs, s.reqs, s.next) && Parking(s) && Types(c, s) && Names(s)
    ensures Tokens(s) && s.next !in s.msgs && s.next !in s.reqs && s.next !in s.sent
  {
    hide Names, Types, Tokens, Exact, Kept, Balanced;
    SoundOf(c, s);
    SoundFresh(s);
    OwnedOf(s);
    NeverSent(s);
  }

  // ---------------------------------------------------------------- Deliver

  lemma DeliveryReady(c: Config, s: State, m: MsgId)
    requires CreditSound(c, s) && m in s.at.net
    ensures Live(s, m) && LinkSound(s.msgs, m) && m in s.sent && s.msgs[m].req in s.sent
  {
    CreditParts(c, s);
    hide CreditSound, Names, Types, Tokens, RequestsExact, CountExact, Kept;
    assert s.at.net[m] > 0 && Housed(s.msgs, s.at, multiset{});
    LiveOwned(s, m);
    OwnerSent(s, m);
  }

  lemma DeliveryAdvances(c: Config, s: State, m: MsgId, x: Match)
    requires !c.e2eOff && CreditSound(c, s) && m in s.at.net && !AnswersAgain(c, s, m, x)
    ensures Live(s, m)
    ensures var a, q := ReactionTo(c, s, m, x), ReqOf(s, m);
      && a.Reaction? && (Ignores(q, s.msgs[m], a) || Advances(s.msgs, s.msgs[m].req, q, s.msgs[m], a))
      && (!IsRequest(s.msgs[m].typ) ==> !q.phase.Finished? && q.token == m)
  {
    hide CreditSound, Names, Types, Tokens, Sound, Kept, React, Advances, Ignores, AnswersAgain;
    CreditParts(c, s);
    DeliveryReady(c, s, m);
    ReactionAdvances(c, s, m, x);
  }

  /** The token of an answered request is the ACK of its reply, and a reply is a token before that. */
  lemma AdvancesOnce(s: State, m: MsgId, a: Reaction)
    requires Live(s, m) && a.Reaction?
    requires var q := ReqOf(s, m);
      && Tracked(s.msgs, s.at, s.sent, s.open, s.msgs[m].req, q) && (!IsRequest(s.msgs[m].typ) ==> q.token == m)
      && (Ignores(q, s.msgs[m], a) || Advances(s.msgs, s.msgs[m].req, q, s.msgs[m], a))
    ensures !Repays(s.msgs, s.msgs[m], ReqOf(s, m))
  {
  }

  lemma CleanSettlesOnce(c: Config, s: State, t: Step)
    requires !c.e2eOff && CreditSound(c, s) && Clean(c, s, t)
    ensures !SettlesTwice(s, t)
  {
    hide CreditSound, Tokens, React, Advances, Ignores, Tracked, Follows, Repays, AnswersAgain, NotRepeated, Sound;
    if t.DeliverStep? && t.msg in s.at.net {
      DeliveryAdvances(c, s, t.msg, t.found);
      CreditParts(c, s);
      TokenOf(s, t.msg);
      AdvancesOnce(s, t.msg, ReactionTo(c, s, t.msg, t.found));
    }
  }

  lemma DeliverTokens(c: Config, s: State, m: MsgId, x: Match)
    requires !c.e2eOff && CreditSound(c, s) && !AnswersAgain(c, s, m, x)
    ensures Tokens(Deliver(c, s, m, x))
  {
    hide Tokens, Names, TypeSound, React, Apply, Unref, Settles, Balanced, Repays, Exact, Kept, Advances, Ignores, Tale,
         AnswersAgain, Types, Owned;
    if m in s.at.net {
      CreditParts(c, s);
      DeliverParts(c, s, m, x);
      CleanSettlesOnce(c, s, DeliverStep(m, x));
      ReturnExact(c, s, m, x);
      DeliveryAdvances(c, s, m, x);
      DeliveryTale(c, s, m, x);
      var s1, a := Arrived(s, m), ReactionTo(c, s, m, x);
      var u := Apply(c, s1, m, a);
      AppliedTokens(s, m, a, u);
      TokensShrunk(u, Deliver(c, s, m, x));
    }
  }

  // ---------------------------------------------------------------- steps that charge nothing

  /** Messages keep their tale and unsent or flying messages stay so; requests keep their story. */
  ghost predicate Untouched(s: State, t: State) {
    && t.open == s.open && t.sent == s.sent && t.at.net == s.at.net && t.ended == s.ended
    && (forall m {:trigger m in s.msgs} :: m in s.msgs ==> SameTale(s.msgs, t.msgs, s.sent, m))
    && (forall r {:trigger r in s.reqs} :: r in s.reqs ==> r in t.reqs && SameStory(s.reqs[r], t.reqs[r]))
  }

  lemma UntouchedTracked(s: State, t: State, r: ReqId)
    requires Untouched(s, t) && r in s.reqs && Tracked(s.msgs, s.at, s.sent, s.open, r, s.reqs[r])
    requires r in s.sent && r !in s.msgs ==> r !in t.msgs
    ensures Tracked(t.msgs, t.at, t.sent, t.open, r, t.reqs[r])
  {
    NoNewReplySelf(s.open, r);
    var q := s.reqs[r];
    if r in s.msgs { assert SameTale(s.msgs, t.msgs, s.sent, r); }
    if q.token in s.msgs {
      assert SameTale(s.msgs, t.msgs, s.sent, q.token);
      var a := s.msgs[q.token].answers;
      if a.Some? && a.value in s.msgs { assert SameTale(s.msgs, t.msgs, s.sent, a.value); }
    }
    hide Untouched, NoNewReply;
    TrackedKept(s.msgs, s.at, s.sent, s.open, r, q, t.msgs, t.at, t.sent, t.open, t.reqs[r]);
  }

  lemma UntouchedFollows(s: State, t: State, m: MsgId)
    requires Untouched(s, t) && Live(s, m)
    requires Follows(s.msgs[m], m, s.at, s.sent, ReqOf(s, m))
    requires !IsRequest(s.msgs[m].typ) ==> t.msgs[m].retry == s.msgs[m].retry
    ensures Follows(t.msgs[m], m, t.at, t.sent, t.reqs[t.msgs[m].req])
  {
    assert m in s.msgs && SameTale(s.msgs, t.msgs, s.sent, m);
  }

  lemma SpawnUntouched(s: State, p: Port, msg: Msg, q: Req)
    requires s.next !in s.msgs && (msg.req in s.reqs ==> SameStory(s.reqs[msg.req], q))
    ensures Untouched(s, Spawn(s, p, msg, q))
  {
  }

  /** One more message, of the request issued or retransmitted. */
  lemma SpawnedTokens(s: State, p: Port, msg: Msg, q: Req)
    requires Tokens(s) && Owned(s.msgs, s.reqs, s.next) && s.next !in s.msgs && s.next !in s.sent && IsRequest(msg.typ)
    requires if msg.req in s.reqs then SameStory(s.reqs[msg.req], q) && msg.retry > 0 && msg.req in s.sent
             else msg.req == s.next && q.phase.Created? && q.token == s.next && msg.retry == 0
                  && forall id {:trigger id in s.open} :: id in s.open ==> id.req != s.next
    ensures Tokens(Spawn(s, p, msg, q))
  {
    hide Tracked, Follows, AllDeparted;
    var t := Spawn(s, p, msg, q);
    SpawnUntouched(s, p, msg, q);
    hide Untouched, SameStory;
    forall r | r in t.reqs ensures Tracked(t.msgs, t.at, t.sent, t.open, r, t.reqs[r]) {
      if r in s.reqs {
        assert Tracked(s.msgs, s.at, s.sent, s.open, r, s.reqs[r]);
        UntouchedTracked(s, t, r);
      } else {
        BornTracked(t.msgs, t.at, t.sent, t.open, r, t.reqs[r]);
      }
    }
    forall m | m in t.msgs && t.msgs[m].req in t.reqs
      ensures Follows(t.msgs[m], m, t.at, t.sent, t.reqs[t.msgs[m].req])
    {
      if m in s.msgs {
        assert Follows(s.msgs[m], m, s.at, s.sent, ReqOf(s, m));
        UntouchedFollows(s, t, m);
      } else {
        BornFollows(t.msgs[m], m, t.at, t.sent, t.reqs[msg.req]);
      }
    }
  }

  lemma BornTracked(msgs: Msgs, at: Places, sent: set<MsgId>, open: Ledger, r: ReqId, q: Req)
    requires q.phase.Created? && q.token == r && r in msgs && msgs[r].req == r && IsRequest(msgs[r].typ)
    requires msgs[r].retry == 0
    requires forall id {:trigger id in open} :: id in open ==> id.req != r
    ensures Tracked(msgs, at, sent, open, r, q)
  {
  }

  lemma BornFollows(msg: Msg, m: MsgId, at: Places, sent: set<MsgId>, q: Req)
    requires IsRequest(msg.typ) && m !in sent && (m == msg.req || (msg.retry > 0 && msg.req in sent))
    ensures Follows(msg, m, at, sent, q)
  {
  }

  /** Nothing is charged for a request that does not exist yet. */
  lemma NotChargedYet(s: State)
    requires Names(s) && s.next !in s.reqs && s.next !in s.sent
    ensures forall id {:trigger id in s.open} :: id in s.open ==> id.req != s.next
  {
    forall id | id in s.open ensures id.req != s.next {
      KeyOf(s, id);
      BookedOf(s, id.req);
    }
    hide Names;
  }

  lemma IssueTokens(c: Config, s: State, k: Command)
    requires CreditSound(c, s)
    ensures Tokens(Issue(s, k))
  {
    hide CreditSound, Sound, Names, Types, Kept, Tokens, Spawn;
    CreditParts(c, s);
    NotChargedYet(s);
    var ni := Interface(k.src, k.srcPid);
    var s1 := s.(cq := s.cq[ni := CqFree(s, ni) - 1]);
    SameTokens(s, s1);
    SpawnedTokens(s1, Port(k.src, RequestVn(k.service)), FirstMessage(k, s.next), NewRequest(k, s.next));
  }

  lemma SameTokens(s: State, t: State)
    requires Tokens(s) && t.msgs == s.msgs && t.reqs == s.reqs && t.at == s.at && t.sent == s.sent && t.open == s.open
    requires t.ended == s.ended
    ensures Tokens(t)
  {
    hide AllTracked, AllFollow, AllDeparted;
  }

  lemma ConsumeTokens(c: Config, s: State, m: MsgId)
    requires CreditSound(c, s)
    ensures Tokens(ConsumeHeader(s, m))
  {
    hide CreditSound, Exact, Types, Kept, Names, Tokens, Unref, Shrunk;
    CreditParts(c, s);
    if m in s.at.uh {
      ConsumeParts(s, m);
      var s1 := s.(at := s.at.(uh := s.at.uh - multiset{m}));
      WaitingKept(s, Noted(s1, m));
      RelocatedTokens(s, Noted(s1, m));
      TokensShrunk(Noted(s1, m), ConsumeHeader(s, m));
    }
  }

  /** Nothing the story of tokens depends on has changed. */
  lemma RelocatedTokens(s: State, t: State)
    requires Tokens(s) && Untouched(s, t) && t.msgs.Keys == s.msgs.Keys && t.reqs.Keys == s.reqs.Keys
    requires forall m {:trigger m in s.msgs} :: m in s.msgs ==>
      s.msgs[m].req in s.reqs && (!IsRequest(s.msgs[m].typ) ==> t.msgs[m].retry == s.msgs[m].retry)
    ensures Tokens(t)
  {
    RelocatedTracked(s, t);
    RelocatedFollow(s, t);
    UntouchedRest(s, t);
    hide AllTracked, AllFollow, AllDeparted, Untouched;
  }

  lemma RelocatedTracked(s: State, t: State)
    requires Tokens(s) && Untouched(s, t) && t.msgs.Keys == s.msgs.Keys && t.reqs.Keys == s.reqs.Keys
    ensures AllTracked(t.msgs, t.reqs, t.at, t.sent, t.open)
  {
    hide Tracked, AllFollow, AllDeparted, Untouched;
    forall r | r in t.reqs ensures Tracked(t.msgs, t.at, t.sent, t.open, r, t.reqs[r]) {
      assert Tracked(s.msgs, s.at, s.sent, s.open, r, s.reqs[r]);
      UntouchedTracked(s, t, r);
    }
  }

  lemma RelocatedFollow(s: State, t: State)
    requires Tokens(s) && Untouched(s, t) && t.msgs.Keys == s.msgs.Keys && t.reqs.Keys == s.reqs.Keys
    requires forall m {:trigger m in s.msgs} :: m in s.msgs ==>
      s.msgs[m].req in s.reqs && (!IsRequest(s.msgs[m].typ) ==> t.msgs[m].retry == s.msgs[m].retry)
    ensures AllFollow(t.msgs, t.reqs, t.at, t.sent)
  {
    hide AllTracked, Follows, AllDeparted, Untouched;
    forall m | m in t.msgs && t.msgs[m].req in t.reqs
      ensures Follows(t.msgs[m], m, t.at, t.sent, t.reqs[t.msgs[m].req])
    {
      assert m in s.msgs;
      assert Follows(s.msgs[m], m, s.at, s.sent, ReqOf(s, m));
      UntouchedFollows(s, t, m);
    }
  }

  lemma UntouchedRest(s: State, t: State)
    requires Untouched(s, t)
    ensures t.open == s.open && t.sent == s.sent && t.ended == s.ended
  {
  }

  // ---------------------------------------------------------------- Timeout

  lemma RetransmitTokens(s: State, n: Nid, m: MsgId)
    requires Tokens(s) && Owned(s.msgs, s.reqs, s.next) && Live(s, m) && m in s.sent && IsRequest(s.msgs[m].typ)
    requires s.next !in s.sent
    ensures Tokens(Retransmit(s, n, m))
  {
    var msg := s.msgs[m];
    var s1 := s.(msgs := s.msgs[m := msg.(retry := msg.retry + 1)]);
    TokenOf(s, m);
    RetriedTokens(s, m, s1);
    hide Tokens, Owned, Tracked;
    SpawnedTokens(s1, Port(n, VnOf(msg)), RetryOf(msg), ReqOf(s, m));
  }

  lemma RetriedTokens(s: State, m: MsgId, s1: State)
    requires Tokens(s) && Owned(s.msgs, s.reqs, s.next) && Live(s, m) && m in s.sent && IsRequest(s.msgs[m].typ)
    requires s1 == s.(msgs := s.msgs[m := s.msgs[m].(retry := s.msgs[m].retry + 1)])
    ensures Tokens(s1) && Owned(s1.msgs, s1.reqs, s1.next) && s1.next !in s1.msgs
  {
    hide Tokens;
    RelocatedTokens(s, s1);
  }

  lemma TimeoutTokens(c: Config, s: State, n: Nid)
    requires CreditSound(c, s) && RepliesOnce(c, s, n)
    ensures Tokens(Timeout(c, s, n))
  {
    hide CreditSound, Sound, Exact, Types, Kept, Names, Tokens, Unref, Shrunk, Retransmit, Taken, LinkSound;
    CreditParts(c, s);
    if Q(s.at.e2e, n) != [] {
      var m, s1, t := Q(s.at.e2e, n)[0], Expired(s, n), Timeout(c, s, n);
      TimeoutParts(c, s, n);
      TakenLive(s1, m);
      ExpiredTypes(c, s, n);
      ExpiredNames(s, n);
      RelocatedTokens(s, s1);
      WaitingKept(s, s1);
      RetryBound(c, s1, m);
      if Retries(c, s1.msgs[m], ReqOf(s1, m)) {
        RetransmitTokens(s1, n, m);
        RetransmitTaken(s1, n, m);
        TokensShrunk(Retransmit(s1, n, m), t);
      } else {
        TokensShrunk(s1, t);
      }
    }
  }

  // ---------------------------------------------------------------- Transmit

  /** A message that leaves on credit is the first of its request, or the reply that is its token. */
  lemma PayerIsToken(c: Config, s: State, m: MsgId)
    requires Live(s, m) && m !in s.sent && NeedsCredit(c, s.msgs[m]) && m != s.msgs[m].req && s.msgs[m].origin == m
    requires Tracked(s.msgs, s.at, s.sent, s.open, s.msgs[m].req, ReqOf(s, m))
    requires Follows(s.msgs[m], m, s.at, s.sent, ReqOf(s, m))
    ensures Holds(s.msgs, Stage(s.msgs[m].req, ReqOf(s, m)), ReqOf(s, m).token, m)
  {
  }

  lemma StillHolds(msgs: Msgs, msgs': Msgs, stage: Phase, token: MsgId, p: MsgId)
    requires Holds(msgs, stage, token, p) && msgs'.Keys == msgs.Keys
    requires forall k {:trigger msgs'[k]} :: k in msgs ==> SameButCount(msgs[k], msgs'[k])
    ensures Holds(msgs', stage, token, p)
  {
  }

  /** The message that leaves may be charged as the reply of its own request; other replies stay as they were. */
  lemma SentReplies(c: Config, s: State, m: MsgId, t: State, r: ReqId)
    requires Live(s, m) && r in s.reqs && m !in s.sent && Left(c, s, m, t)
    requires NeedsCredit(c, s.msgs[m]) ==> s.msgs[m].origin == m
    requires Tracked(s.msgs, s.at, s.sent, s.open, s.msgs[m].req, ReqOf(s, m))
    requires Follows(s.msgs[m], m, s.at, s.sent, ReqOf(s, m)) && OneReply(s.msgs, s.open, r, s.reqs[r])
    ensures r in t.reqs && OneReply(t.msgs, t.open, r, t.reqs[r])
  {
    LeftParts(c, s, m, t);
    var q := s.reqs[r];
    assert SameStory(q, t.reqs[r]);
    hide Left, Tracked, Follows, Holds;
    forall p | p != r && ChargeId(r, p) in t.open ensures Holds(t.msgs, Stage(r, q), q.token, p) {
      if ChargeId(r, p) !in s.open { PayerIsToken(c, s, m); }
      StillHolds(s.msgs, t.msgs, Stage(r, q), q.token, p);
    }
  }

  lemma SentMoves(c: Config, s: State, m: MsgId, t: State, r: ReqId)
    requires Live(s, m) && r in s.reqs && m !in s.sent && Left(c, s, m, t) && (m in s.reqs ==> s.msgs[m].req == m)
    requires TokenMoves(s.msgs, s.at, s.sent, r, s.reqs[r]) && Started(s.msgs, s.sent, r, s.reqs[r])
    ensures r in t.reqs
    ensures TokenMoves(t.msgs, t.at, t.sent, r, t.reqs[r]) && Started(t.msgs, t.sent, r, t.reqs[r])
  {
    LeftParts(c, s, m, t);
    var q := s.reqs[r];
    hide Left;
    if q.token in s.msgs { assert SameButCount(s.msgs[q.token], t.msgs[q.token]); }
    if r in s.msgs { assert SameButCount(s.msgs[r], t.msgs[r]); }
  }

  lemma SentFollows(s: State, m: MsgId, t: State, k: MsgId)
    requires Live(s, m) && Live(s, k) && Live(t, k) && m !in s.sent
    requires Follows(s.msgs[k], k, s.at, s.sent, ReqOf(s, k))
    requires t.sent == s.sent + {m} && t.at.net == s.at.net + multiset{m}
    requires SameButCount(s.msgs[k], t.msgs[k]) && SameStory(ReqOf(s, k), ReqOf(t, k))
    ensures Follows(t.msgs[k], k, t.at, t.sent, ReqOf(t, k))
  {
  }

  lemma LeftTokens(c: Config, s: State, m: MsgId, t: State)
    requires Tokens(s) && Owned(s.msgs, s.reqs, s.next) && Live(s, m) && m !in s.sent && Left(c, s, m, t)
    requires (m in s.reqs ==> s.msgs[m].req == m) && (NeedsCredit(c, s.msgs[m]) ==> s.msgs[m].origin == m)
    requires s.msgs[m].req !in s.ended
    ensures Tokens(t)
  {
    LeftParts(c, s, m, t);
    TokenOf(s, m);
    hide TokenMoves, OneReply, Started, Follows, Left, SameButCount, SameStory, Departed;
    forall r | r in t.reqs ensures Tracked(t.msgs, t.at, t.sent, t.open, r, t.reqs[r]) {
      assert Tracked(s.msgs, s.at, s.sent, s.open, r, s.reqs[r]);
      SentMoves(c, s, m, t, r);
      SentReplies(c, s, m, t, r);
    }
    forall k | k in t.msgs && t.msgs[k].req in t.reqs ensures Follows(t.msgs[k], k, t.at, t.sent, ReqOf(t, k)) {
      TokenOf(s, k);
      SameReq(s.msgs[k], t.msgs[k]);
      SentFollows(s, m, t, k);
    }
    DepartedKept(s.ended, s.open, t.open);
  }

  lemma TransmitTokens(c: Config, s: State, p: Port)
    requires !c.e2eOff && CreditSound(c, s) && Transmit(c, s, p).fault.NoFault?
    ensures Tokens(Transmit(c, s, p))
  {
    hide CreditSound, TypeSound, Names, Tokens, Dispatch, CheckFlowctrl, ChargedChannel, ChargeOf, Owned, Left, Sound,
         Types, Kept;
    CreditParts(c, s);
    if Q(s.at.tx, p) != [] {
      assert NameSound(c, s) by { NamedSound(c, s); }
      TransmitReady(c, s, p);
      var m, popped := Q(s.at.tx, p)[0], Popped(s, p);
      var msg, q, t := s.msgs[m], ReqOf(s, m), Transmit(c, s, p);
      FirstsOf(s, m);
      if !NeedsCredit(c, msg) {
        DispatchLeft(c, s, popped, p.nid, m);
        LeftTokens(c, s, m, t);
      } else {
        match CheckFlowctrl(c, FlowOf(s, p.nid), ChargedChannel(msg, q))
        case NegativeCredit =>
        case Refused(f) => ParkedTokens(s, t);
        case Granted(f) =>
          if f.entries > 0 {
            DispatchLeft(c, s, ChargeFor(popped, p.nid, f, msg, q), p.nid, m);
            LeftTokens(c, s, m, t);
          }
      }
    }
  }

  lemma NamedSound(c: Config, s: State)
    requires CreditSound(c, s)
    ensures NameSound(c, s) && Fine(c, s)
  {
    hide NameSound, Tokens, Balanced;
  }

  lemma FirstsOf(s: State, m: MsgId)
    requires Names(s) && Live(s, m)
    ensures (m in s.reqs ==> s.msgs[m].req == m) && s.msgs[m].req !in s.ended
  {
    BookedOf(s, s.msgs[m].req);
    hide KeysFit, AllBooked, AllPlaced;
  }

  /** A refused message only changes how counters are stored. */
  lemma ParkedTokens(s: State, t: State)
    requires Tokens(s) && t.msgs == s.msgs && t.reqs == s.reqs && t.open == s.open && t.sent == s.sent
    requires Owned(s.msgs, s.reqs, s.next) && t.at.net == s.at.net && t.ended == s.ended
    ensures Tokens(t)
  {
    hide Tokens;
    RelocatedTokens(s, t);
  }

  // ---------------------------------------------------------------- runs

  /** Clean runs settle no request twice, so they conserve their credits; and the story of tokens goes on. */
  lemma NextCredits(c: Config, s: State, t: Step)
    requires !c.e2eOff && CreditSound(c, s) && Clean(c, s, t)
    ensures CreditSound(c, Next(c, s, t))
  {
    NamedSound(c, s);
    CleanSettlesOnce(c, s, t);
    hide CreditSound, NameSound, Balanced, SettlesTwice, Tokens, Issue, Transmit, Deliver, Timeout, ConsumeHeader,
         AnswersAgain, RepliesOnce;
    NextNames(c, s, t);
    StepExact(c, s, t);
    match t
    case IssueStep(k) => IssueTokens(c, s, k);
    case TransmitStep(p) => TransmitTokens(c, s, p);
    case DeliverStep(m, x) => DeliverTokens(c, s, m, x);
    case TimeoutStep(n) => TimeoutTokens(c, s, n);
    case HeaderStep(m) => ConsumeTokens(c, s, m);
    AllSound(c, Next(c, s, t));
  }

  lemma AllSound(c: Config, s: State)
    requires NameSound(c, s) && Fine(c, s) && Tokens(s)
    ensures CreditSound(c, s)
  {
  }

  lemma {:induction false} RunCredits(c: Config, steps: seq<Step>)
    requires !c.e2eOff && CleanRun(c, steps)
    ensures CreditSound(c, Run(c, steps))
  {
    hide NameSound, Balanced, Clean;
    if steps == [] {
      RunNames(c, steps);
      InitBalanced(c);
    } else {
      hide CreditSound;
      RunCredits(c, steps[..|steps| - 1]);
      NextCredits(c, Run(c, steps[..|steps| - 1]), steps[|steps| - 1]);
    }
  }

  /** Credit conservation: a clean run never aborts, and every credit is either free or charged. */
  lemma CreditConservation(c: Config, steps: seq<Step>)
    requires !c.e2eOff && CleanRun(c, steps)
    ensures Run(c, steps).fault.NoFault? && Conserved(c, Run(c, steps))
  {
    hide NameSound, Balanced, Conserved, Tokens;
    RunCredits(c, steps);
    ConservedIsBalanced(c, Run(c, steps));
  }

  /** What `Clean` forbids covers every way to settle a request twice. */
  lemma {:induction false} CleanNeverSettlesTwice(c: Config, steps: seq<Step>)
    requires !c.e2eOff && CleanRun(c, steps)
    ensures NeverSettlesTwice(c, steps)
  {
    hide Clean, CreditSound, SettlesTwice;
    if steps != [] {
      var before := steps[..|steps| - 1];
      CleanNeverSettlesTwice(c, before);
      RunCredits(c, before);
      CleanSettlesOnce(c, Run(c, before), steps[|steps| - 1]);
    }
  }

  /** A request that was dropped without an answer and given up: its credit is never given back. */
  predicate Lost(s: State, r: ReqId) {
    r in s.ended && s.ended[r].phase.Created?
  }

  /** What is charged is what unfinished requests still need, each under its own key. The next message of such
      a request is on its way, unless every copy of the request so far was dropped without an answer. */
  lemma ChargesBelongToRequests(c: Config, steps: seq<Step>, id: ChargeId)
    requires !c.e2eOff && CleanRun(c, steps) && id in Run(c, steps).open
    ensures var s := Run(c, steps);
      if id.req in s.reqs then
        var q := s.reqs[id.req];
        && !q.phase.Finished? && s.open[id] == ChargeOf(q.command, id)
        && ((q.token in s.msgs && Undelivered(s.at, s.sent, q.token))
            || (q.phase.Created? && q.token == id.req && id.payer == id.req))
      else Lost(s, id.req) && id.payer == id.req && s.open[id] == ChargeOf(s.ended[id.req].command, id)
  {
    hide Tokens, Names, TypeSound, Balanced, Types;
    RunCredits(c, steps);
    var s := Run(c, steps);
    hide Run;
    assert id == ChargeId(id.req, id.payer);
    CreditParts(c, s);
    KeyOf(s, id);
    BookedOf(s, id.req);
    hide CreditSound;
    if id.req in s.reqs {
      TrackedOf(s, id.req);
    } else {
      DepartedOf(s, id.req);
    }
  }

  lemma TrackedOf(s: State, r: ReqId)
    requires Tokens(s) && r in s.reqs
    ensures Tracked(s.msgs, s.at, s.sent, s.open, r, s.reqs[r])
  {
    hide AllFollow, AllDeparted, Tracked;
  }

  lemma DepartedOf(s: State, r: ReqId)
    requires Tokens(s) && r in s.ended
    ensures Departed(s.open, r, s.ended[r])
  {
    hide AllFollow, AllTracked, Departed;
  }

  /** The credit of a lost request stays charged for good. */
  lemma LostStayCharged(c: Config, steps: seq<Step>, r: ReqId)
    requires !c.e2eOff && CleanRun(c, steps) && Lost(Run(c, steps), r)
    ensures ChargeId(r, r) in Run(c, steps).open
  {
    hide CreditSound;
    RunCredits(c, steps);
    hide Run;
    CreditParts(c, Run(c, steps));
    BookedOf(Run(c, steps), r);
  }

  /** Every counter and every E2E semaphore of every node is full. */
  ghost predicate AllFull(c: Config, s: State) {
    forall n {:trigger FlowOf(s, n)} ::
      && FlowOf(s, n).entries == MAX_E2E_ENTRIES
      && (c.maxToTarget > 0 ==> forall vn, peer :: NodeFree(c, FlowOf(s, n), vn, peer) == c.maxToTarget)
      && (c.maxToProcess > 0 ==> forall ch :: ProcessFree(c, FlowOf(s, n), ch) == c.maxToProcess)
  }

  lemma FullExactly(c: Config, s: State)
    requires Balanced(c, s.flows, s.open)
    ensures AllFull(c, s) <==> s.open == map[]
  {
    hide AtPeer, AtChannel;
    if s.open == map[] {
      forall n ensures NodeBalanced(c, FlowOf(s, n), s.open, n) {
        assert NodeBalanced(c, FlowAt(s.flows, n), s.open, n);
      }
      forall n { FullWhenEmpty(c, FlowOf(s, n), s.open, n); }
    } else {
      var id :| id in s.open;
      var n := s.open[id].node;
      assert NodeBalanced(c, FlowAt(s.flows, n), s.open, n);
      assert id in AtNode(s.open, n);
      assert FlowOf(s, n).entries < MAX_E2E_ENTRIES;
    }
  }

  lemma NoRequestLeft(s: State)
    requires Sound(s) && s.fault.NoFault? && s.msgs == map[]
    ensures s.reqs == map[]
  {
    hide MessagesExact, Kept;
    forall r: ReqId ensures MessagesOf(s.msgs, r) == {} { }
  }

  /** When no message is left, what is missing from the counters is one credit for each lost request, under the
      key of its request message: all counters are full exactly if no request ended without an answer. */
  lemma QuietMeansFull(c: Config, steps: seq<Step>)
    requires !c.e2eOff && CleanRun(c, steps) && Run(c, steps).msgs == map[]
    ensures var s := Run(c, steps);
      && (forall id {:trigger id in s.open} :: id in s.open <==> id.payer == id.req && Lost(s, id.req))
      && (AllFull(c, s) <==> forall r :: !Lost(s, r))
  {
    var s := Run(c, steps);
    RunCredits(c, steps);
    CreditParts(c, s);
    NamedSound(c, s);
    NoRequestLeft(s);
    hide Sound, Run, CleanRun, Types, AllFull, Balanced, CreditSound, Names, Tokens;
    FullExactly(c, s);
    forall id ensures id in s.open <==> id.payer == id.req && Lost(s, id.req) {
      if id in s.open { ChargesBelongToRequests(c, steps, id); }
      if id.payer == id.req && Lost(s, id.req) {
        LostStayCharged(c, steps, id.req);
        assert id == ChargeId(id.req, id.req);
      }
    }
    if s.open == map[] {
      forall r ensures !Lost(s, r) { if Lost(s, r) { LostStayCharged(c, steps, r); } }
    } else {
      var id :| id in s.open;
      assert Lost(s, id.req);
    }
  }
}
