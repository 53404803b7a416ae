/** The command queue of an interface has 16 slots. A slot is taken when a command is posted and freed when
    its request message leaves; a retransmitted request frees one that nobody took. */
module NicCommandQueue {
  import opened Wire
  import opened Queues
  import opened FlowControl
  import opened Nic
  import opened NicRefs
  import opened NicParking
  import opened NicRefRuns
  import opened NicTypes
  import opened NicFrames

  /** Message `m` is the first try of a command posted on `ni` and has not left yet. */
  ghost predicate Pends(msgs: Msgs, reqs: Reqs, sent: set<MsgId>, m: MsgId, ni: Interface) {
    && m in msgs && m !in sent && IsRequest(msgs[m].typ) && msgs[m].retry == 0 && msgs[m].req in reqs
    && Interface(reqs[msgs[m].req].command.src, reqs[msgs[m].req].command.srcPid) == ni
  }

  ghost function Pending(msgs: Msgs, reqs: Reqs, sent: set<MsgId>, ni: Interface): set<MsgId> {
    set m | m in msgs && Pends(msgs, reqs, sent, m, ni)
  }

  ghost predicate SlotsExact(s: State) {
    && (forall ni {:trigger CqFree(s, ni)} ::
          CqFree(s, ni) + |Pending(s.msgs, s.reqs, s.sent, ni)| == CQ_INITIAL_CAPACITY + s.resent[ni])
    && WatchedWereSent(s.at, s.sent)
  }

  ghost predicate SlotSound(c: Config, s: State) {
    TypeSound(c, s) && (s.fault.NoFault? ==> SlotsExact(s))
  }

  lemma SlotsKept(s: State, t: State)
    requires SlotsExact(s) && t.cq == s.cq && t.resent == s.resent && WatchedWereSent(t.at, t.sent)
    requires forall m, ni {:trigger Pends(t.msgs, t.reqs, t.sent, m, ni)} ::
      Pends(t.msgs, t.reqs, t.sent, m, ni) <==> Pends(s.msgs, s.reqs, s.sent, m, ni)
    ensures SlotsExact(t)
  {
    forall ni ensures CqFree(t, ni) == CqFree(s, ni) { }
    hide Pends;
    forall ni: Interface ensures Pending(t.msgs, t.reqs, t.sent, ni) == Pending(s.msgs, s.reqs, s.sent, ni) {
      forall m ensures m in Pending(t.msgs, t.reqs, t.sent, ni) <==> m in Pending(s.msgs, s.reqs, s.sent, ni) {
        PendsLive(s, m, ni);
        PendsLive(t, m, ni);
      }
    }
  }

  lemma PendsLive(s: State, m: MsgId, ni: Interface)
    ensures Pends(s.msgs, s.reqs, s.sent, m, ni) ==> m in s.msgs
  {
  }

  // ---------------------------------------------------------------- frames

  /** Old messages and requests keep their contents; what is new is not the first try of a command. */
  lemma GrownSlots(s: State, t: State)
    requires SlotsExact(s) && t.cq == s.cq && t.resent == s.resent && t.sent == s.sent && WatchedWereSent(t.at, t.sent)
    requires Owned(s.msgs, s.reqs, s.next) && SameContents(s.msgs, t.msgs)
    requires forall m {:trigger m in t.msgs} :: m in t.msgs && m !in s.msgs ==> !IsRequest(t.msgs[m].typ)
    requires forall r {:trigger t.reqs[r]} {:trigger r in s.reqs} ::
      r in s.reqs ==> r in t.reqs && t.reqs[r].command == s.reqs[r].command
    ensures SlotsExact(t)
  {
    forall m, ni ensures Pends(t.msgs, t.reqs, t.sent, m, ni) <==> Pends(s.msgs, s.reqs, s.sent, m, ni) {
      if m in s.msgs { assert SameButCount(s.msgs[m], t.msgs[m]) && s.msgs[m].req in s.reqs; }
    }
    hide Pends;
    SlotsKept(s, t);
  }

  lemma ShrunkSlots(u: State, t: State)
    requires SlotsExact(u) && Parking(u) && Shrunk(u.msgs, t.msgs, u.reqs, t.reqs, u.at) && SameRest(u, t) && RefInv(t)
    ensures SlotsExact(t)
  {
    forall m, ni ensures Pends(t.msgs, t.reqs, t.sent, m, ni) <==> Pends(u.msgs, u.reqs, u.sent, m, ni) {
      if m in u.msgs {
        assert Survives(u.msgs, t.msgs, u.at, m);
        if m !in u.sent { UndeliveredHeld(u, m); }
      }
    }
    hide Pends;
    SlotsKept(u, t);
  }

  // ---------------------------------------------------------------- Deliver

  lemma HeaderSlots(s: State, m: MsgId)
    requires SlotsExact(s) && m in s.msgs && Owned(s.msgs, s.reqs, s.next)
    ensures SlotsExact(PushHeader(s, m)) && Owned(PushHeader(s, m).msgs, s.reqs, s.next)
  {
    hide SlotsExact, SameContents;
    SlotsWatch(s);
    ReferenceContents(s.msgs, m);
    WatchedKept(s.at, PushHeader(s, m).at, s.sent);
    GrownSlots(s, PushHeader(s, m));
  }

  lemma SlotsWatch(s: State)
    requires SlotsExact(s)
    ensures WatchedWereSent(s.at, s.sent)
  {
  }

  lemma ReleaseSlots(c: Config, s: State, n: Nid, ch: Channel, id: ChargeId)
    requires SlotsExact(s)
    ensures SlotsExact(ReleaseAt(c, s, n, ch, id))
  {
    hide SlotsExact, Pends, WatchedWereSent, ReleaseAt;
    SlotsWatch(s);
    WatchedKept(s.at, ReleaseAt(c, s, n, ch, id).at, s.sent);
    SlotsKept(s, ReleaseAt(c, s, n, ch, id));
  }

  lemma AnswerSlots(s: State, m: MsgId, q: Req, reply: Reply)
    requires SlotsExact(s) && Live(s, m) && s.next !in s.msgs && Owned(s.msgs, s.reqs, s.next)
    requires q.command == ReqOf(s, m).command && !IsRequest(reply.typ)
    ensures SlotsExact(Answer(s, m, q, reply))
  {
    hide SlotsExact, SameContents, Answer;
    AnswerTale(s, m, q, reply);
    AnswerSent(s, m, q, reply);
    SlotsWatch(s);
    WatchedKept(s.at, Answer(s, m, q, reply).at, s.sent);
    GrownSlots(s, Answer(s, m, q, reply));
  }

  lemma WriteSlots(s: State, r: ReqId, q: Req)
    requires SlotsExact(s) && r in s.reqs && q.command == s.reqs[r].command && Owned(s.msgs, s.reqs, s.next)
    ensures SlotsExact(SetReq(s, r, q))
  {
    hide SlotsExact;
    SlotsWatch(s);
    GrownSlots(s, SetReq(s, r, q));
  }

  lemma AppliedSlots(c: Config, s: State, m: MsgId, a: Reaction)
    requires SlotsExact(s) && Live(s, m) && s.next !in s.msgs && Owned(s.msgs, s.reqs, s.next) && Tame(s, m, a)
    ensures SlotsExact(Apply(c, s, m, a))
  {
    hide ReleaseAt, SlotsExact, Answer, Owned;
    if a.Abort? {
      SlotsWatch(s);
      hide Pends;
      SlotsKept(s, Fail(s, a.fault));
    } else {
      var s1 := if a.keeps then PushHeader(s, m) else s;
      if a.keeps { HeaderSlots(s, m); }
      var s2 := s1;
      if a.gives.Some? {
        var g := a.gives.value;
        s2 := ReleaseAt(c, s1, g.node, g.channel, g.id);
        ReleaseSlots(c, s1, g.node, g.channel, g.id);
      }
      if a.sends.Some? { AnswerSlots(s2, m, a.req, a.sends.value); }
      else { WriteSlots(s2, s.msgs[m].req, a.req); }
    }
  }

  lemma MovedSlots(s: State, t: State)
    requires SlotsExact(s) && t.msgs == s.msgs && t.reqs == s.reqs && t.sent == s.sent && t.cq == s.cq
    requires t.resent == s.resent
    requires WatchedWereSent(t.at, t.sent)
    ensures SlotsExact(t)
  {
    hide Pends, WatchedWereSent;
    SlotsKept(s, t);
  }

  lemma TakenOwned(s: State, m: MsgId)
    requires Taken(s, m)
    ensures Live(s, m) && Owned(s.msgs, s.reqs, s.next) && LinkSound(s.msgs, m)
  {
  }

  lemma DeliverSlots(c: Config, s: State, m: MsgId, x: Match)
    requires SlotSound(c, s)
    ensures SlotSound(c, Deliver(c, s, m, x))
  {
    hide TypeSound, Exact, Types, React, Apply, Unref, Kept, Shrunk, SlotsExact, Taken, Tame, Owned, LinkSound;
    DeliverTypes(c, s, m, x);
    if s.fault.NoFault? && m in s.at.net {
      SoundOf(c, s);
      var s1, t := Arrived(s, m), Deliver(c, s, m, x);
      DeliverParts(c, s, m, x);
      TakenOwned(s1, m);
      SlotsWatch(s);
      WatchedKept(s.at, s1.at, s.sent);
      MovedSlots(s, s1);
      WaitingKept(s, s1);
      ReactionTame(c, s1, m, x);
      TameSends(s1, m, ReactionTo(c, s1, m, x));
      var u := Apply(c, s1, m, ReactionTo(c, s1, m, x));
      AppliedSlots(c, s1, m, ReactionTo(c, s1, m, x));
      ApplyParks(c, s1, m, ReactionTo(c, s1, m, x));
      ShrunkSlots(u, t);
    }
  }

  lemma ConsumeSlots(c: Config, s: State, m: MsgId)
    requires SlotSound(c, s)
    ensures SlotSound(c, ConsumeHeader(s, m))
  {
    hide TypeSound, Exact, Types, Unref, Kept, Shrunk, SlotsExact, Taken, Owned;
    ConsumeTypes(c, s, m);
    if s.fault.NoFault? && m in s.at.uh {
      SoundOf(c, s);
      var s1 := s.(at := s.at.(uh := s.at.uh - multiset{m}));
      ConsumeParts(s, m);
      TakenOwned(s1, m);
      SlotsWatch(s);
      WatchedKept(s.at, s1.at, s.sent);
      MovedSlots(s, s1);
      WaitingKept(s, Noted(s1, m));
      WriteSlots(s1, s1.msgs[m].req, Noted(s1, m).reqs[s1.msgs[m].req]);
      ShrunkSlots(Noted(s1, m), ConsumeHeader(s, m));
    }
  }

  // ---------------------------------------------------------------- Issue

  lemma IssuedPends(s: State, k: Command, m: MsgId, ni: Interface)
    requires Owned(s.msgs, s.reqs, s.next) && s.next !in s.msgs && s.next !in s.reqs && s.next !in s.sent
    requires s.fault.NoFault? && CqFree(s, Interface(k.src, k.srcPid)) > 0
    ensures var t := Issue(s, k);
      Pends(t.msgs, t.reqs, t.sent, m, ni) <==>
        Pends(s.msgs, s.reqs, s.sent, m, ni) || (m == s.next && ni == Interface(k.src, k.srcPid))
  {
  }

  /** One more message pends, on one interface. */
  lemma PendingGrows(s: State, t: State, m0: MsgId, ni0: Interface)
    requires forall m, ni {:trigger Pends(t.msgs, t.reqs, t.sent, m, ni)} ::
      Pends(t.msgs, t.reqs, t.sent, m, ni) <==> Pends(s.msgs, s.reqs, s.sent, m, ni) || (m == m0 && ni == ni0)
    requires !Pends(s.msgs, s.reqs, s.sent, m0, ni0)
    ensures forall ni: Interface ::
      |Pending(t.msgs, t.reqs, t.sent, ni)| == |Pending(s.msgs, s.reqs, s.sent, ni)| + (if ni == ni0 then 1 else 0)
  {
    hide Pends;
    forall ni: Interface
      ensures |Pending(t.msgs, t.reqs, t.sent, ni)| ==
              |Pending(s.msgs, s.reqs, s.sent, ni)| + (if ni == ni0 then 1 else 0)
    {
      forall m ensures m in Pending(t.msgs, t.reqs, t.sent, ni) <==>
                       m in Pending(s.msgs, s.reqs, s.sent, ni) || (m == m0 && ni == ni0)
      {
        PendsLive(s, m, ni);
        PendsLive(t, m, ni);
      }
      assert Pending(t.msgs, t.reqs, t.sent, ni) ==
             Pending(s.msgs, s.reqs, s.sent, ni) + (if ni == ni0 then {m0} else {});
    }
  }

  lemma IssueSlots(c: Config, s: State, k: Command)
    requires SlotSound(c, s)
    ensures SlotSound(c, Issue(s, k))
  {
    hide TypeSound, Sound, Types, Kept, Pends, WatchedWereSent, Owned, Pending;
    IssueTypes(c, s, k);
    var ni0 := Interface(k.src, k.srcPid);
    if s.fault.NoFault? && CqFree(s, ni0) > 0 {
      SoundOf(c, s);
      SoundFresh(s);
      SoundOwned(s);
      NeverSent(s);
      PendsLive(s, s.next, ni0);
      var t := Issue(s, k);
      WatchedKept(s.at, t.at, s.sent);
      IssueKeeps(s, k);
      hide Issue;
      forall m, ni ensures Pends(t.msgs, t.reqs, t.sent, m, ni) <==>
                           Pends(s.msgs, s.reqs, s.sent, m, ni) || (m == s.next && ni == ni0)
      {
        IssuedPends(s, k, m, ni);
      }
      PendingGrows(s, t, s.next, ni0);
      forall ni ensures CqFree(t, ni) == CqFree(s, ni) - (if ni == ni0 then 1 else 0) { }
    }
  }

  lemma IssueKeeps(s: State, k: Command)
    ensures Issue(s, k).resent == s.resent && Issue(s, k).fault == s.fault && Issue(s, k).sent == s.sent
    ensures var ni := Interface(k.src, k.srcPid);
      Issue(s, k).cq == if s.fault.NoFault? && CqFree(s, ni) > 0 then s.cq[ni := CqFree(s, ni) - 1] else s.cq
  {
  }

  lemma SoundOwned(s: State)
    requires Sound(s) && s.fault.NoFault?
    ensures Owned(s.msgs, s.reqs, s.next)
  {
    hide MessagesExact, RequestsExact, Kept;
  }

  // ---------------------------------------------------------------- Timeout

  lemma ExpiredWatched(s: State, n: Nid)
    requires WatchedWereSent(s.at, s.sent) && Q(s.at.e2e, n) != []
    ensures WatchedWereSent(Expired(s, n).at, s.sent) && Q(s.at.e2e, n)[0] in s.sent
  {
    PopCount(s.at.e2e, n);
    forall k, m | Count(Expired(s, n).at.e2e, k, m) > 0 ensures m in s.sent { assert Count(s.at.e2e, k, m) > 0; }
  }

  lemma RetransmitSlots(s: State, n: Nid, m: MsgId)
    requires SlotsExact(s) && Live(s, m) && m in s.sent && s.next !in s.msgs
    ensures SlotsExact(Retransmit(s, n, m))
  {
    var t := Retransmit(s, n, m);
    WatchedKept(s.at, t.at, s.sent);
    forall k, ni ensures Pends(t.msgs, t.reqs, t.sent, k, ni) <==> Pends(s.msgs, s.reqs, s.sent, k, ni) { }
    hide Pends, Retransmit, WatchedWereSent, CqFree;
    RetransmitKeeps(s, n, m);
    SlotsKept(s, t);
  }

  lemma RetransmitKeeps(s: State, n: Nid, m: MsgId)
    requires Live(s, m)
    ensures Retransmit(s, n, m).cq == s.cq && Retransmit(s, n, m).resent == s.resent
    ensures Retransmit(s, n, m).sent == s.sent
  {
  }

  lemma TimeoutSlots(c: Config, s: State, n: Nid)
    requires SlotSound(c, s)
    ensures SlotSound(c, Timeout(c, s, n))
  {
    hide TypeSound, Exact, Types, Unref, Kept, Shrunk, Retransmit, SlotsExact, Taken, Owned;
    TimeoutTypes(c, s, n);
    if s.fault.NoFault? && Q(s.at.e2e, n) != [] {
      SoundOf(c, s);
      var m, s1, t := Q(s.at.e2e, n)[0], Expired(s, n), Timeout(c, s, n);
      TimeoutParts(c, s, n);
      TakenOwned(s1, m);
      ExpiredTypes(c, s, n);
      RetryBound(c, s1, m);
      SlotsWatch(s);
      ExpiredWatched(s, n);
      MovedSlots(s, s1);
      WaitingKept(s, s1);
      if Retries(c, s1.msgs[m], ReqOf(s1, m)) {
        RetransmitSlots(s1, n, m);
        RetransmitTaken(s1, n, m);
        ShrunkSlots(Retransmit(s1, n, m), t);
      } else {
        ShrunkSlots(s1, t);
      }
    }
  }

  // ---------------------------------------------------------------- Transmit

  /** The first try of a command leaves: it no longer pends. Nothing else does or did. */
  lemma SentPends(c: Config, s: State, n: Nid, m: MsgId, k: MsgId, ni: Interface)
    requires Live(s, m) && m !in s.sent
    ensures var t := Dispatch(c, s, n, m); var msg := s.msgs[m];
      Pends(s.msgs, s.reqs, s.sent, k, ni) <==>
        || Pends(t.msgs, t.reqs, t.sent, k, ni)
        || (IsRequest(msg.typ) && msg.retry == 0 && k == m
            && ni == Interface(ReqOf(s, m).command.src, ReqOf(s, m).command.srcPid))
  {
  }

  lemma SentCq(c: Config, s: State, n: Nid, m: MsgId)
    requires Live(s, m)
    ensures var t := Dispatch(c, s, n, m); var msg := s.msgs[m];
      var ni := Interface(ReqOf(s, m).command.src, ReqOf(s, m).command.srcPid);
      && (forall i {:trigger CqFree(t, i)} ::
            CqFree(t, i) == CqFree(s, i) + (if IsRequest(msg.typ) && i == ni then 1 else 0))
      && (forall i {:trigger t.resent[i]} ::
            t.resent[i] == s.resent[i] + (if IsRequest(msg.typ) && msg.retry > 0 && i == ni then 1 else 0))
      && t.fault == s.fault && m in t.sent
  {
  }

  lemma DispatchSlots(c: Config, s: State, n: Nid, m: MsgId)
    requires SlotsExact(s) && Live(s, m) && m !in s.sent
    ensures SlotsExact(Dispatch(c, s, n, m))
  {
    var t, msg := Dispatch(c, s, n, m), s.msgs[m];
    var ni0 := Interface(ReqOf(s, m).command.src, ReqOf(s, m).command.srcPid);
    LaunchWatched(c, s, n, m);
    SentCq(c, s, n, m);
    forall k, ni ensures Pends(s.msgs, s.reqs, s.sent, k, ni) <==>
      Pends(t.msgs, t.reqs, t.sent, k, ni) || (IsRequest(msg.typ) && msg.retry == 0 && k == m && ni == ni0)
    {
      SentPends(c, s, n, m, k, ni);
    }
    assert !Pends(t.msgs, t.reqs, t.sent, m, ni0);
    hide Dispatch, Pends, CqFree, WatchedWereSent;
    if IsRequest(msg.typ) && msg.retry == 0 {
      PendingGrows(t, s, m, ni0);
    } else {
      SamePending(s, t);
    }
    hide Pending;
  }

  lemma SamePending(s: State, t: State)
    requires forall m, ni {:trigger Pends(s.msgs, s.reqs, s.sent, m, ni)} ::
      Pends(s.msgs, s.reqs, s.sent, m, ni) <==> Pends(t.msgs, t.reqs, t.sent, m, ni)
    ensures forall ni: Interface :: Pending(s.msgs, s.reqs, s.sent, ni) == Pending(t.msgs, t.reqs, t.sent, ni)
  {
    hide Pends;
    forall ni: Interface ensures Pending(s.msgs, s.reqs, s.sent, ni) == Pending(t.msgs, t.reqs, t.sent, ni) {
      forall m ensures m in Pending(s.msgs, s.reqs, s.sent, ni) <==> m in Pending(t.msgs, t.reqs, t.sent, ni) {
        PendsLive(s, m, ni);
        PendsLive(t, m, ni);
      }
    }
  }

  lemma TransmitSlots(c: Config, s: State, p: Port)
    requires SlotSound(c, s)
    ensures SlotSound(c, Transmit(c, s, p))
  {
    hide TypeSound, Exact, Types, Kept, SlotsExact, Dispatch, CheckFlowctrl, ChargedChannel, Push, Pop;
    TransmitTypes(c, s, p);
    if s.fault.NoFault? && Q(s.at.tx, p) != [] {
      SoundOf(c, s);
      HeadUnsent(s, p);
      SlotsWatch(s);
      var m, popped := Q(s.at.tx, p)[0], Popped(s, p);
      if Live(s, m) {
        var msg, q := s.msgs[m], ReqOf(s, m);
        WatchedKept(s.at, popped.at, s.sent);
        if !NeedsCredit(c, msg) {
          MovedSlots(s, popped);
          DispatchSlots(c, popped, p.nid, m);
        } else {
          match CheckFlowctrl(c, FlowOf(s, p.nid), ChargedChannel(msg, q))
          case NegativeCredit =>
          case Refused(f) =>
            var t := Park(popped.(flows := s.flows[p.nid := f]), p, m);
            WatchedKept(s.at, t.at, s.sent);
            MovedSlots(s, t);
          case Granted(f) =>
            if f.entries > 0 {
              var charged := ChargeFor(popped, p.nid, f, msg, q);
              MovedSlots(s, charged);
              DispatchSlots(c, charged, p.nid, m);
            }
        }
      }
    }
  }

  // ---------------------------------------------------------------- runs

  lemma NextSlots(c: Config, s: State, t: Step)
    requires SlotSound(c, s)
    ensures SlotSound(c, Next(c, s, t))
  {
    hide SlotSound, Issue, Transmit, Deliver, Timeout, ConsumeHeader;
    match t
    case IssueStep(k) => IssueSlots(c, s, k);
    case TransmitStep(p) => TransmitSlots(c, s, p);
    case DeliverStep(m, x) => DeliverSlots(c, s, m, x);
    case TimeoutStep(n) => TimeoutSlots(c, s, n);
    case HeaderStep(m) => ConsumeSlots(c, s, m);
  }

  lemma {:induction false} RunSlots(c: Config, steps: seq<Step>)
    ensures SlotSound(c, Run(c, steps))
  {
    hide TypeSound;
    RunTypes(c, steps);
    if steps == [] {
      forall ni: Interface ensures Pending(map[], map[], {}, ni) == {} { }
    } else {
      RunSlots(c, steps[..|steps| - 1]);
      NextSlots(c, Run(c, steps[..|steps| - 1]), steps[|steps| - 1]);
    }
  }

  /** Conservation of command slots, in any run: free slots plus commands not yet accepted are 16, plus one
      for every retransmitted request. */
  lemma CommandSlots(c: Config, steps: seq<Step>, ni: Interface)
    requires Run(c, steps).fault.NoFault?
    ensures var s := Run(c, steps);
      CqFree(s, ni) + |Pending(s.msgs, s.reqs, s.sent, ni)| == CQ_INITIAL_CAPACITY + s.resent[ni]
  {
    hide TypeSound, Pending;
    RunSlots(c, steps);
  }

  /** BxiNI::fini takes all 16 slots, one after the other: it can get through exactly when no more commands
      pend than requests were retransmitted, so without retransmission exactly when none pends. */
  lemma FiniDrains(c: Config, steps: seq<Step>, ni: Interface)
    requires Run(c, steps).fault.NoFault?
    ensures var s := Run(c, steps);
      && (CqFree(s, ni) >= CQ_INITIAL_CAPACITY <==> |Pending(s.msgs, s.reqs, s.sent, ni)| <= s.resent[ni])
      && (s.resent[ni] == 0 ==>
            (CqFree(s, ni) >= CQ_INITIAL_CAPACITY <==> forall m :: !Pends(s.msgs, s.reqs, s.sent, m, ni)))
  {
    hide Pends, CqFree;
    CommandSlots(c, steps, ni);
    var s := Run(c, steps);
    if |Pending(s.msgs, s.reqs, s.sent, ni)| == 0 {
      forall m ensures !Pends(s.msgs, s.reqs, s.sent, m, ni) {
        PendsLive(s, m, ni);
        assert m !in Pending(s.msgs, s.reqs, s.sent, ni);
      }
    } else {
      var m :| m in Pending(s.msgs, s.reqs, s.sent, ni);
      assert Pends(s.msgs, s.reqs, s.sent, m, ni);
    }
  }
}
