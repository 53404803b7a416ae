/** Every handler keeps reference counts exact, so no run ever touches a freed message or request. */
module NicRefRuns {
  import opened Wire
  import opened Queues
  import opened FlowControl
  import opened Nic
  import opened NicRefs
  import opened NicParking

  /** The faults a wrong reference count would cause. */
  predicate MemoryFault(f: Fault) {
    f.UseAfterFree? || f.EndlessDestructor?
  }

  // ---------------------------------------------------------------- building blocks

  lemma WriteExact(s: State, r: ReqId, q: Req, debt: multiset<MsgId>)
    requires Exact(s, debt, multiset{})
    requires r in s.reqs && q.command == s.reqs[r].command && q.msgRefs == s.reqs[r].msgRefs
    ensures Exact(SetReq(s, r, q), debt, multiset{})
  {
    hide MessagesExact;
  }

  lemma ReleaseExact(c: Config, s: State, n: Nid, ch: Channel, id: ChargeId, debt: multiset<MsgId>)
    requires Exact(s, debt, multiset{})
    ensures Exact(ReleaseAt(c, s, n, ch, id), debt, multiset{})
    ensures ReleaseAt(c, s, n, ch, id).fault == s.fault || ReleaseAt(c, s, n, ch, id).fault.ReleasePanic?
  {
    ReleasePlaces(c, s, n, ch, id);
    hide MessagesExact, RequestsExact, Owned, ReleaseAt;
    Resumed(s.msgs, s.at, Port(n, ch.vn), debt);
  }

  /** Whatever waits on the port resumes, if flow control is in use. */
  lemma ReleasePlaces(c: Config, s: State, n: Nid, ch: Channel, id: ChargeId)
    ensures var p, at := Port(n, ch.vn), ReleaseAt(c, s, n, ch, id).at;
      if !c.e2eOff && (c.maxToProcess > 0 || c.maxToTarget > 0) && Releasable(c, FlowOf(s, n), ch)
      then at == s.at.(tx := Splice(s.at.tx, s.at.parked, p), parked := Clear(s.at.parked, p))
      else at == s.at
  {
    hide Splice, Clear, Credited, Releasable;
  }

  lemma ReleaseFlows(c: Config, s: State, n: Nid, ch: Channel, id: ChargeId)
    requires !c.e2eOff
    ensures var t := ReleaseAt(c, s, n, ch, id);
      if Releasable(c, FlowOf(s, n), ch)
      then t.fault == s.fault && t.open == s.open - {id}
           && t.flows == s.flows[n := ReleaseEntry(c, FlowOf(s, n), ch).flow]
      else t.fault.ReleasePanic?
  {
    hide Splice, Clear, Releasable;
  }

  lemma PushHeaderExact(s: State, m: MsgId, debt: multiset<MsgId>)
    requires Exact(s, debt, multiset{}) && m in s.msgs
    ensures Exact(PushHeader(s, m), debt, multiset{})
  {
    hide MessagesExact;
    ReferenceExact(s.msgs, s.at, m, debt);
    ToHeaders(Reference(s.msgs, m), s.at, m, debt);
    RequestsKept(s, PushHeader(s, m), multiset{});
  }

  lemma AnswerExact(s: State, m: MsgId, q: Req, reply: Reply, debt: multiset<MsgId>)
    requires Exact(s, debt, multiset{}) && Live(s, m) && !IsRequest(reply.typ)
    requires q.command == ReqOf(s, m).command && q.msgRefs == ReqOf(s, m).msgRefs
    ensures Exact(Answer(s, m, q, reply), debt, multiset{}) && Answer(s, m, q, reply).fault == s.fault
  {
    var msg, s1, back := s.msgs[m], Linked(s, m, reply.typ), ReplyTo(s.next, m, s.msgs[m], reply);
    assert msg.service == q.command.service;
    LinkedExact(s, m, reply, debt);
    hide Exact, Spawn, Linked;
    SpawnExact(s1, Port(msg.target, ResponseVn(msg.service)), back, q.(token := s.next), debt, multiset{});
  }

  lemma LinkedExact(s: State, m: MsgId, reply: Reply, debt: multiset<MsgId>)
    requires Exact(s, debt, multiset{}) && m in s.msgs
    ensures Exact(Linked(s, m, reply.typ), Prepared(ReplyTo(s.next, m, s.msgs[m], reply), debt), multiset{})
    ensures SameLinks(s.msgs, Linked(s, m, reply.typ).msgs)
  {
    hide MessagesExact, RequestsExact, Owned;
    var s1 := Linked(s, m, reply.typ);
    if s1 != s {
      ReferenceExact(s.msgs, s.at, m, debt);
      RequestsKept(s, s1, multiset{});
    }
  }

  /** What reference counting needs to know about a reaction to message `m`. */
  ghost predicate Tame(s: State, m: MsgId, a: Reaction)
    requires Live(s, m)
  {
    if a.Abort? then !MemoryFault(a.fault)
    else
      && a.req.command == ReqOf(s, m).command && a.req.msgRefs == ReqOf(s, m).msgRefs
      && (a.sends.Some? ==> !IsRequest(a.sends.value.typ))
  }

  lemma PutTame(c: Config, s: State, m: MsgId, x: Match)
    requires Live(s, m)
    ensures Tame(s, m, HandlePut(c, m, s.msgs[m], ReqOf(s, m), x))
    ensures Tame(s, m, HandleAtomic(c, m, s.msgs[m], ReqOf(s, m), x))
  {
  }

  lemma ReplyTame(c: Config, s: State, m: MsgId)
    requires Live(s, m) && LinkSound(s.msgs, m)
    ensures Tame(s, m, HandleResponse(c, s.msgs[m], ReqOf(s, m)))
    ensures Tame(s, m, HandlePtlAck(c, s.msgs[m], ReqOf(s, m)))
    ensures Tame(s, m, HandleBxiAck(s.msgs, s.msgs[m], ReqOf(s, m)))
  {
  }

  lemma ReactionTame(c: Config, s: State, m: MsgId, x: Match)
    requires Live(s, m) && LinkSound(s.msgs, m)
    ensures Tame(s, m, React(c, s.msgs, m, s.msgs[m], ReqOf(s, m), x))
  {
    PutTame(c, s, m, x);
    ReplyTame(c, s, m);
    hide HandlePut, HandleAtomic, HandleResponse, HandlePtlAck, HandleBxiAck;
  }

  lemma ApplyExact(c: Config, s: State, m: MsgId, a: Reaction, debt: multiset<MsgId>)
    requires Exact(s, debt, multiset{}) && Live(s, m) && Tame(s, m, a)
    ensures var t := Apply(c, s, m, a); Exact(t, debt, multiset{}) && (t.fault == s.fault || !MemoryFault(t.fault))
  {
    hide MessagesExact, RequestsExact, Owned, ReleaseAt, Answer;
    if a.Reaction? {
      var s1 := if a.keeps then PushHeader(s, m) else s;
      if a.keeps { PushHeaderExact(s, m, debt); }
      var s2 := s1;
      if a.gives.Some? {
        s2 := ReleaseAt(c, s1, a.gives.value.node, a.gives.value.channel, a.gives.value.id);
        ReleaseExact(c, s1, a.gives.value.node, a.gives.value.channel, a.gives.value.id, debt);
      }
      if a.sends.Some? { AnswerExact(s2, m, a.req, a.sends.value, debt); }
      else { WriteExact(s2, s.msgs[m].req, a.req, debt); }
    }
  }

  // ---------------------------------------------------------------- steps

  /** Between two steps: exact counts and sound parking unless the program has aborted, and never an
      abort for a memory fault. */
  ghost predicate Sound(s: State) {
    !MemoryFault(s.fault) && (s.fault.NoFault? ==> RefInv(s) && Parking(s))
  }

  /** A message some place gave up, with its reference now held by the running handler. */
  ghost predicate Taken(s: State, m: MsgId) {
    Exact(s, multiset{m}, multiset{}) && Parking(s) && Live(s, m) && LinkSound(s.msgs, m)
  }

  lemma TakenFrom(s: State, m: MsgId)
    requires Exact(s, multiset{} + multiset{m}, multiset{}) && Parking(s)
    ensures Taken(s, m)
  {
    hide Kept;
    assert multiset{} + multiset{m} == multiset{m};
    InDebt(s.msgs, s.at, m, multiset{});
  }

  /** Giving back the handler's reference only removes what nothing holds any more. */
  ghost predicate Settles(u: State, t: State) {
    && Shrunk(u.msgs, t.msgs, u.reqs, t.reqs, u.at) && SameRest(u, t) && RefInv(t)
    && Buried(u.reqs, t.reqs, u.ended, t.ended)
  }

  lemma TakenSettles(s: State, m: MsgId)
    requires Exact(s, multiset{m}, multiset{})
    ensures Settles(s, Unref(s, m))
  {
    hide MessagesExact, RequestsExact, Owned, Shrunk, Buried;
    assert multiset{} + multiset{m} == multiset{m};
    UnrefExact(s, m, multiset{}, multiset{});
    UnrefShrinks(s, m, multiset{}, multiset{});
    UnrefBuries(s, m);
  }

  function Arrived(s: State, m: MsgId): State {
    s.(at := s.at.(net := s.at.net - multiset{m}))
  }

  function ReactionTo(c: Config, s: State, m: MsgId, x: Match): Reaction
    requires Live(s, m)
  {
    React(c, s.msgs, m, s.msgs[m], ReqOf(s, m), x)
  }

  /** A delivery is: take the message, apply the reaction, give back its reference. */
  lemma DeliverParts(c: Config, s: State, m: MsgId, x: Match)
    requires Sound(s) && s.fault.NoFault? && m in s.at.net
    ensures var s1 := Arrived(s, m);
      && Taken(s1, m) && s1.next !in s1.msgs && s1.next !in s1.reqs
      && Exact(Apply(c, s1, m, ReactionTo(c, s1, m, x)), multiset{m}, multiset{})
      && Settles(Apply(c, s1, m, ReactionTo(c, s1, m, x)), Deliver(c, s, m, x))
  {
    hide MessagesExact, RequestsExact, Owned, React, Apply, Unref, Kept, Buried;
    var s1 := Arrived(s, m);
    FromNet(s.msgs, s.at, m, multiset{});
    WaitingKept(s, s1);
    TakenFrom(s1, m);
    FreshRequest(s, multiset{}, multiset{});
    ReactionTame(c, s1, m, x);
    ApplyExact(c, s1, m, ReactionTo(c, s1, m, x), multiset{m});
    TakenSettles(Apply(c, s1, m, ReactionTo(c, s1, m, x)), m);
  }

  function Expired(s: State, n: Nid): State
    requires Q(s.at.e2e, n) != []
  {
    s.(at := s.at.(e2e := Pop(s.at.e2e, n)))
  }

  predicate Retries(c: Config, msg: Msg, q: Req) {
    !AckedInTime(msg, q) && msg.retry < c.maxRetries
  }

  lemma TimeoutParts(c: Config, s: State, n: Nid)
    requires Sound(s) && s.fault.NoFault? && Q(s.at.e2e, n) != []
    ensures var m, s1 := Q(s.at.e2e, n)[0], Expired(s, n);
      && Taken(s1, m) && s1.msgs[m].initiator == n && s1.next !in s1.msgs
      && var msg, q := s1.msgs[m], ReqOf(s1, m);
         && (Retries(c, msg, q) ==> Settles(Retransmit(s1, n, m), Timeout(c, s, n)))
         && (!Retries(c, msg, q) && (AckedInTime(msg, q) || msg.retry <= c.maxRetries) ==>
               Settles(s1, Timeout(c, s, n)))
  {
    hide MessagesExact, RequestsExact, Owned, Retransmit, Unref, Kept, Buried;
    var m, s1 := Q(s.at.e2e, n)[0], Expired(s, n);
    FromE2e(s.msgs, s.at, n, multiset{});
    WaitingKept(s, s1);
    TakenFrom(s1, m);
    FreshRequest(s, multiset{}, multiset{});
    if Retries(c, s1.msgs[m], ReqOf(s1, m)) {
      RetransmitTaken(s1, n, m);
      TakenSettles(Retransmit(s1, n, m), m);
    } else {
      TakenSettles(s1, m);
    }
  }

  function Noted(s: State, m: MsgId): State
    requires Live(s, m)
  {
    var q := ReqOf(s, m);
    SetReq(s, s.msgs[m].req, q.(targetLog := q.targetLog + [OverflowEvent]))
  }

  lemma ConsumeParts(s: State, m: MsgId)
    requires Sound(s) && s.fault.NoFault? && m in s.at.uh
    ensures var s1 := s.(at := s.at.(uh := s.at.uh - multiset{m}));
      && Taken(s1, m) && Settles(Noted(s1, m), ConsumeHeader(s, m))
  {
    hide MessagesExact, RequestsExact, Owned, Unref, Kept, Buried;
    var s1 := s.(at := s.at.(uh := s.at.uh - multiset{m}));
    FromHeaders(s.msgs, s.at, m, multiset{});
    WaitingKept(s, s1);
    TakenFrom(s1, m);
    var q := ReqOf(s1, m);
    WriteExact(s1, s1.msgs[m].req, q.(targetLog := q.targetLog + [OverflowEvent]), multiset{m});
    TakenSettles(Noted(s1, m), m);
  }

  lemma DeliverSound(c: Config, s: State, m: MsgId, x: Match)
    requires Sound(s)
    ensures Sound(Deliver(c, s, m, x))
  {
    hide MessagesExact, RequestsExact, Owned, React, Apply, Unref, Kept, Shrunk, Buried;
    if s.fault.NoFault? && m in s.at.net {
      var s1 := Arrived(s, m);
      WaitingKept(s, s1);
      DeliverParts(c, s, m, x);
      ReactionTame(c, s1, m, x);
      ApplyExact(c, s1, m, ReactionTo(c, s1, m, x), multiset{m});
      ApplyParks(c, s1, m, ReactionTo(c, s1, m, x));
      ShrunkParks(Apply(c, s1, m, ReactionTo(c, s1, m, x)), Deliver(c, s, m, x));
    }
  }

  lemma ConsumeSound(s: State, m: MsgId)
    requires Sound(s)
    ensures Sound(ConsumeHeader(s, m))
  {
    hide MessagesExact, RequestsExact, Owned, Unref, Kept, Shrunk, Buried;
    if s.fault.NoFault? && m in s.at.uh {
      var s1 := s.(at := s.at.(uh := s.at.uh - multiset{m}));
      WaitingKept(s, s1);
      ConsumeParts(s, m);
      ShrunkParks(Noted(s1, m), ConsumeHeader(s, m));
    }
  }

  lemma FreshRequest(s: State, debt: multiset<MsgId>, owed: multiset<ReqId>)
    requires Exact(s, debt, owed)
    ensures s.next !in s.reqs && s.next !in s.msgs
  {
    hide MessagesExact;
  }

  lemma IssueSound(s: State, k: Command)
    requires Sound(s)
    ensures Sound(Issue(s, k))
  {
    hide MessagesExact, RequestsExact, Owned, Kept, Spawn;
    var ni := Interface(k.src, k.srcPid);
    if s.fault.NoFault? && CqFree(s, ni) > 0 {
      var s1 := s.(cq := s.cq[ni := CqFree(s, ni) - 1]);
      FreshRequest(s, multiset{}, multiset{});
      var first := FirstMessage(k, s.next);
      SpawnExact(s1, Port(k.src, RequestVn(k.service)), first, NewRequest(k, s.next), multiset{}, multiset{});
      SpawnParks(s1, Port(k.src, RequestVn(k.service)), first, NewRequest(k, s.next));
    }
  }

  lemma Retried(msgs: Msgs, at: Places, m: MsgId, msgs': Msgs, debt: multiset<MsgId>)
    requires MessagesExact(msgs, at, debt) && m in msgs
    requires msgs' == msgs[m := msgs[m].(retry := msgs[m].retry + 1)]
    ensures MessagesExact(msgs', at, debt) && SameLinks(msgs, msgs')
  {
    forall k | k in msgs ensures msgs[k].refCount > 0 { assert CountExact(msgs, at, debt, k); }
    Moved(msgs, msgs', at, at, debt, debt);
  }

  lemma RetransmitTaken(s: State, n: Nid, m: MsgId)
    requires Taken(s, m) && s.msgs[m].initiator == n
    ensures Exact(Retransmit(s, n, m), multiset{m}, multiset{}) && Parking(Retransmit(s, n, m))
    ensures Retransmit(s, n, m).fault == s.fault
  {
    var msg := s.msgs[m];
    var s1 := s.(msgs := s.msgs[m := msg.(retry := msg.retry + 1)]);
    assert msg.service == ReqOf(s, m).command.service;
    hide MessagesExact, RequestsExact, Owned, Kept;
    Retried(s.msgs, s.at, m, s1.msgs, multiset{m});
    RequestsKept(s, s1, multiset{});
    WaitingKept(s, s1);
    SpawnExact(s1, Port(n, VnOf(msg)), RetryOf(msg), ReqOf(s, m), multiset{m}, multiset{});
    SpawnParks(s1, Port(n, VnOf(msg)), RetryOf(msg), ReqOf(s, m));
  }

  lemma TimeoutSound(c: Config, s: State, n: Nid)
    requires Sound(s)
    ensures Sound(Timeout(c, s, n))
  {
    hide MessagesExact, RequestsExact, Owned, Retransmit, Unref, Kept, Shrunk, Buried;
    if s.fault.NoFault? && Q(s.at.e2e, n) != [] {
      var m, s1 := Q(s.at.e2e, n)[0], Expired(s, n);
      TimeoutParts(c, s, n);
      WaitingKept(s, s1);
      if Retries(c, s1.msgs[m], ReqOf(s1, m)) {
        RetransmitTaken(s1, n, m);
        ShrunkParks(Retransmit(s1, n, m), Timeout(c, s, n));
      } else if AckedInTime(s1.msgs[m], ReqOf(s1, m)) || s1.msgs[m].retry <= c.maxRetries {
        ShrunkParks(s1, Timeout(c, s, n));
      }
    }
  }

  lemma LaunchExact(msgs: Msgs, at: Places, n: Nid, m: MsgId, watched: bool)
    requires MessagesExact(msgs, at, multiset{m}) && m in msgs && msgs[m].initiator == n
    ensures MessagesExact(
      if watched then Reference(msgs, m) else msgs,
      at.(net := at.net + multiset{m}, e2e := if watched then Push(at.e2e, n, m) else at.e2e), multiset{})
    ensures SameLinks(msgs, if watched then Reference(msgs, m) else msgs)
  {
    hide MessagesExact;
    assert multiset{} + multiset{m} == multiset{m};
    ToNet(msgs, at, m, multiset{});
    if watched {
      var at1 := at.(net := at.net + multiset{m});
      ReferenceExact(msgs, at1, m, multiset{});
      ToE2e(Reference(msgs, m), at1, m, multiset{});
    }
  }

  lemma DispatchExact(c: Config, s: State, n: Nid, m: MsgId)
    requires Exact(s, multiset{m}, multiset{}) && Live(s, m) && s.msgs[m].initiator == n
    ensures RefInv(Dispatch(c, s, n, m))
  {
    hide MessagesExact, RequestsExact, Owned;
    var msg, q := s.msgs[m], ReqOf(s, m);
    LaunchExact(s.msgs, s.at, n, m, Watched(c, msg));
    var s1 := s.(msgs := if Watched(c, msg) then Reference(s.msgs, m) else s.msgs, at := Dispatch(c, s, n, m).at);
    RequestsKept(s, s1, multiset{});
    WriteExact(s1, msg.req, OnDispatch(c, msg, q), multiset{});
  }

  lemma ParkExact(s: State, p: Port, m: MsgId)
    requires Exact(s, multiset{m}, multiset{}) && Live(s, m) && Home(s.msgs[m]) == p
    requires Count(s.at.parked, p, m) == 0
    ensures RefInv(Park(s, p, m))
  {
    hide MessagesExact, RequestsExact, Owned;
    CountIn(s.at.parked, p, m);
    assert multiset{} + multiset{m} == multiset{m};
    ToParked(s.msgs, s.at, m, multiset{});
  }

  lemma TransmitSound(c: Config, s: State, p: Port)
    requires Sound(s)
    ensures Sound(Transmit(c, s, p))
  {
    hide MessagesExact, RequestsExact, Owned, Kept;
    if s.fault.NoFault? && Q(s.at.tx, p) != [] {
      var m := Q(s.at.tx, p)[0];
      FromTx(s.msgs, s.at, p, multiset{});
      assert multiset{} + multiset{m} == multiset{m};
      assert Live(s, m) by { LiveOwned(s, m); }
      var msg, q, popped := s.msgs[m], ReqOf(s, m), Popped(s, p);
      if !NeedsCredit(c, msg) {
        DispatchExact(c, popped, p.nid, m);
        DispatchParks(c, s, p.nid, m, p, popped);
      } else {
        match CheckFlowctrl(c, FlowOf(s, p.nid), ChargedChannel(msg, q))
        case NegativeCredit =>
        case Refused(f) =>
          ParkParks(s, p, m, s.flows[p.nid := f]);
          ParkExact(popped.(flows := s.flows[p.nid := f]), p, m);
        case Granted(f) =>
          if f.entries > 0 {
            var charged := ChargeFor(popped, p.nid, f, msg, q);
            DispatchExact(c, charged, p.nid, m);
            DispatchParks(c, s, p.nid, m, p, charged);
          }
      }
    }
  }

  lemma LiveOwned(s: State, m: MsgId)
    requires Owned(s.msgs, s.reqs, s.next) && m in s.msgs
    ensures Live(s, m)
  {
  }

  lemma NextSound(c: Config, s: State, t: Step)
    requires Sound(s)
    ensures Sound(Next(c, s, t))
  {
    hide Sound, Issue, Transmit, Deliver, Timeout, ConsumeHeader;
    match t
    case IssueStep(k) => IssueSound(s, k);
    case TransmitStep(p) => TransmitSound(c, s, p);
    case DeliverStep(m, x) => DeliverSound(c, s, m, x);
    case TimeoutStep(n) => TimeoutSound(c, s, n);
    case HeaderStep(m) => ConsumeSound(s, m);
  }

  lemma InitSound()
    ensures Sound(INIT)
  {
    assert forall p: Port, m :: Waiting(INIT.at, p, m) == 0;
  }

  /** Any run, with any retransmissions, duplicates, reorderings and matching outcomes. */
  lemma {:induction false} RunSound(c: Config, steps: seq<Step>)
    ensures Sound(Run(c, steps))
  {
    hide Sound;
    if steps == [] {
      InitSound();
    } else {
      RunSound(c, steps[..|steps| - 1]);
      NextSound(c, Run(c, steps[..|steps| - 1]), steps[|steps| - 1]);
    }
  }

  /** In every run that has not aborted, the count of a live message is the number of places and links
      holding it, no other queue holds it and no place holds a dead one, the count of a live request is the
      number of its messages, and no request was deleted twice or is still used after its deletion. */
  lemma ReferenceCountsExact(c: Config, steps: seq<Step>)
    requires Run(c, steps).fault.NoFault?
    ensures var s := Run(c, steps);
      && (forall m :: m in s.msgs ==>
            && s.msgs[m].refCount == HeldBy(s.at, m, s.msgs[m]) + |Answerers(s.msgs, m)|
            && s.msgs[m].req in s.reqs)
      && Housed(s.msgs, s.at, multiset{})
      && (forall r :: r in s.reqs ==> s.reqs[r].msgRefs == |MessagesOf(s.msgs, r)| > 0)
      && (forall r :: s.freed[r] <= 1 && (r in s.freed ==> r !in s.reqs))
  {
    RunSound(c, steps);
    var s := Run(c, steps);
    forall m | m in s.msgs
      ensures s.msgs[m].refCount == HeldBy(s.at, m, s.msgs[m]) + |Answerers(s.msgs, m)|
    {
      assert CountExact(s.msgs, s.at, multiset{}, m);
    }
  }

  /** No run touches a freed message or request, and no destructor chain fails to end. */
  lemma NoUseAfterFree(c: Config, steps: seq<Step>)
    ensures !Run(c, steps).fault.UseAfterFree? && !Run(c, steps).fault.EndlessDestructor?
  {
    RunSound(c, steps);
  }

  /** Every message ever handed to a transmit queue is in exactly one of that queue, the parked deque and
      the set of sent messages, and in the network at most once. */
  lemma ParkingLosesNothing(c: Config, steps: seq<Step>, m: MsgId)
    requires Run(c, steps).fault.NoFault? && m < Run(c, steps).next
    ensures var s := Run(c, steps);
      && (m in s.sent ==> s.at.net[m] <= 1 && forall p :: Waiting(s.at, p, m) == 0)
      && (m !in s.sent ==>
            && m in s.msgs && s.at.net[m] == 0
            && forall p :: Waiting(s.at, p, m) == (if p == Home(s.msgs[m]) then 1 else 0))
  {
    RunSound(c, steps);
    var s := Run(c, steps);
    assert s.at.net[m] >= 0;
    forall p: Port ensures Waiting(s.at, p, m) <= 1 && (m in s.sent ==> Waiting(s.at, p, m) == 0) { }
    if m !in s.sent {
      forall p: Port ensures Waiting(s.at, p, m) == if p == Home(s.msgs[m]) then 1 else 0 { }
    }
  }
}
