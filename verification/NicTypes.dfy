/** Every message agrees with its request: direction, kind, what an ACK answers, and how often it was
    retried. This is what rules out the E2E panics and makes the handlers' casts sound. */
module NicTypes {
  import opened Wire
  import opened Queues
  import opened FlowControl
  import opened Nic
  import opened NicRefs
  import opened NicParking
  import opened NicRefRuns

  predicate PutLike(t: ReqType) {
    t.PutReq? || t.AtomicReq?
  }

  /** The reply kinds a request may get. */
  predicate Fits(t: MsgType, r: ReqType) {
    match t
    case PtlAck => PutLike(r)
    case GetResponse => r.GetReq?
    case FetchAtomicResponse => r.FetchAtomicReq?
    case E2eAck => true
    case _ => t == RequestMessage(r)
  }

  predicate Travels(msg: Msg, src: Nid, dst: Nid) {
    msg.initiator == src && msg.target == dst
  }

  /** The shape of one message of a request issued by command `k`. */
  ghost predicate Typed(c: Config, msgs: Msgs, msg: Msg, k: Command) {
    && Fits(msg.typ, k.typ)
    && msg.retry <= c.maxRetries
    && (IsRequest(msg.typ) ==> Travels(msg, k.src, k.dst))
    && (IsReply(msg.typ) ==> Travels(msg, k.dst, k.src))
    && (msg.typ.E2eAck? ==>
          && msg.answers.Some? && msg.answers.value in msgs
          && var a := msgs[msg.answers.value];
             !a.typ.E2eAck? && Travels(msg, a.target, a.initiator))
  }

  ghost predicate TypedAt(c: Config, msgs: Msgs, reqs: Reqs, m: MsgId)
    requires m in msgs
  {
    msgs[m].req in reqs && Typed(c, msgs, msgs[m], reqs[msgs[m].req].command)
  }

  ghost predicate AllTyped(c: Config, msgs: Msgs, reqs: Reqs) {
    forall m {:trigger TypedAt(c, msgs, reqs, m)} :: m in msgs ==> TypedAt(c, msgs, reqs, m)
  }

  /** The E2E actor never watches an E2E ACK. */
  ghost predicate AcksUnwatched(msgs: Msgs, at: Places) {
    forall n, m {:trigger Count(at.e2e, n, m)} :: Count(at.e2e, n, m) > 0 ==> m in msgs && !msgs[m].typ.E2eAck?
  }

  ghost predicate Types(c: Config, s: State) {
    AllTyped(c, s.msgs, s.reqs) && AcksUnwatched(s.msgs, s.at)
  }

  /** The faults a wrongly typed message would cause. */
  predicate TypeFault(f: Fault) {
    f.AckWithoutAnswer? || f.RetryAboveMaximum?
  }

  // ---------------------------------------------------------------- elementary moves

  lemma Retyped(c: Config, msgs: Msgs, msgs': Msgs, reqs: Reqs, reqs': Reqs)
    requires AllTyped(c, msgs, reqs) && msgs'.Keys == msgs.Keys
    requires forall k {:trigger msgs'[k]} :: k in msgs ==>
      && msgs'[k].initiator == msgs[k].initiator && msgs'[k].target == msgs[k].target && msgs'[k].typ == msgs[k].typ
      && msgs'[k].req == msgs[k].req && msgs'[k].answers == msgs[k].answers && msgs'[k].retry <= c.maxRetries
    requires forall r {:trigger reqs[r]} :: r in reqs ==> r in reqs' && reqs'[r].command == reqs[r].command
    ensures AllTyped(c, msgs', reqs')
  {
    forall m | m in msgs' ensures TypedAt(c, msgs', reqs', m) {
      assert TypedAt(c, msgs, reqs, m);
    }
  }

  lemma BornTyped(c: Config, msgs: Msgs, m: MsgId, msg: Msg, msgs': Msgs, reqs: Reqs, q: Req, reqs': Reqs)
    requires AllTyped(c, msgs, reqs) && m !in msgs && msgs' == msgs[m := msg] && reqs' == reqs[msg.req := q]
    requires Typed(c, msgs, msg, q.command) && (msg.req in reqs ==> reqs[msg.req].command == q.command)
    ensures AllTyped(c, msgs', reqs')
  {
    forall k | k in msgs' ensures TypedAt(c, msgs', reqs', k) {
      if k != m { assert TypedAt(c, msgs, reqs, k); }
    }
  }

  lemma SpawnTyped(c: Config, s: State, p: Port, msg: Msg, q: Req)
    requires Types(c, s) && s.next !in s.msgs
    requires Typed(c, s.msgs, msg, q.command) && (msg.req in s.reqs ==> s.reqs[msg.req].command == q.command)
    ensures Types(c, Spawn(s, p, msg, q)) && Spawn(s, p, msg, q).fault == s.fault
  {
    hide AllTyped;
    var t := Spawn(s, p, msg, q);
    BornTyped(c, s.msgs, s.next, msg.(refCount := 1), t.msgs, s.reqs, q.(msgRefs := q.msgRefs + 1), t.reqs);
    forall n, m | Count(t.at.e2e, n, m) > 0 ensures m in t.msgs && !t.msgs[m].typ.E2eAck? {
      assert Count(s.at.e2e, n, m) > 0;
    }
  }

  /** References and request records do not matter. */
  lemma TypesKept(c: Config, s: State, t: State)
    requires Types(c, s) && t.msgs.Keys == s.msgs.Keys && t.at.e2e == s.at.e2e
    requires forall k {:trigger t.msgs[k]} :: k in s.msgs ==> SameButCount(s.msgs[k], t.msgs[k])
    requires forall r {:trigger s.reqs[r]} :: r in s.reqs ==> r in t.reqs && t.reqs[r].command == s.reqs[r].command
    ensures Types(c, t)
  {
    forall k | k in s.msgs ensures s.msgs[k].retry <= c.maxRetries { assert TypedAt(c, s.msgs, s.reqs, k); }
    Retyped(c, s.msgs, t.msgs, s.reqs, t.reqs);
    forall n, m | Count(t.at.e2e, n, m) > 0 ensures m in t.msgs && !t.msgs[m].typ.E2eAck? {
      assert Count(s.at.e2e, n, m) > 0;
    }
  }

  lemma ShrunkTyped(c: Config, s: State, t: State)
    requires Types(c, s) && Shrunk(s.msgs, t.msgs, s.reqs, t.reqs, s.at) && SameRest(s, t) && RefInv(t)
    ensures Types(c, t)
  {
    forall m | m in t.msgs ensures TypedAt(c, t.msgs, t.reqs, m) {
      assert TypedAt(c, s.msgs, s.reqs, m) && Survives(s.msgs, t.msgs, s.at, m) && LinkSound(t.msgs, m);
      if t.msgs[m].typ.E2eAck? { assert Survives(s.msgs, t.msgs, s.at, t.msgs[m].answers.value); }
    }
    forall n, m | Count(t.at.e2e, n, m) > 0 ensures m in t.msgs && !t.msgs[m].typ.E2eAck? {
      assert Count(s.at.e2e, n, m) > 0;
      assert Survives(s.msgs, t.msgs, s.at, m);
    }
  }

  // ---------------------------------------------------------------- reactions

  /** The message a reaction sends back. */
  function Back(s: State, m: MsgId, reply: Reply): Msg
    requires m in s.msgs
  {
    ReplyTo(s.next, m, s.msgs[m], reply)
  }

  /** A reaction to a well-typed message never panics and sends back a well-typed message. */
  ghost predicate ReactsTyped(c: Config, s: State, m: MsgId, a: Reaction)
    requires Live(s, m)
  {
    && a.Reaction?
    && a.req.command == ReqOf(s, m).command
    && (a.sends.Some? ==> Typed(c, s.msgs, Back(s, m, a.sends.value), a.req.command))
  }

  lemma PutReactsTyped(c: Config, s: State, m: MsgId, x: Match)
    requires Live(s, m) && Typed(c, s.msgs, s.msgs[m], ReqOf(s, m).command)
    requires s.msgs[m].typ.PtlPut? || s.msgs[m].typ.PtlAtomic?
    ensures ReactsTyped(c, s, m, HandlePut(c, m, s.msgs[m], ReqOf(s, m), x))
    ensures ReactsTyped(c, s, m, HandleAtomic(c, m, s.msgs[m], ReqOf(s, m), x))
  {
  }

  lemma GetReactsTyped(c: Config, s: State, m: MsgId, x: Match, response: MsgType)
    requires Live(s, m) && Typed(c, s.msgs, s.msgs[m], ReqOf(s, m).command)
    requires if s.msgs[m].typ.PtlGet? then response.GetResponse?
             else s.msgs[m].typ.PtlFetchAtomic? && response.FetchAtomicResponse?
    ensures ReactsTyped(c, s, m, HandleGet(m, ReqOf(s, m), x, response))
  {
  }

  lemma ReplyReactsTyped(c: Config, s: State, m: MsgId)
    requires Live(s, m) && Typed(c, s.msgs, s.msgs[m], ReqOf(s, m).command)
    requires IsReply(s.msgs[m].typ)
    ensures ReactsTyped(c, s, m, HandleResponse(c, s.msgs[m], ReqOf(s, m)))
    ensures ReactsTyped(c, s, m, HandlePtlAck(c, s.msgs[m], ReqOf(s, m)))
  {
  }

  lemma AckReactsTyped(c: Config, s: State, m: MsgId)
    requires Live(s, m) && Typed(c, s.msgs, s.msgs[m], ReqOf(s, m).command)
    requires s.msgs[m].typ.E2eAck?
    ensures ReactsTyped(c, s, m, HandleBxiAck(s.msgs, s.msgs[m], ReqOf(s, m)))
  {
  }

  lemma ReactionTyped(c: Config, s: State, m: MsgId, x: Match)
    requires Live(s, m) && Types(c, s)
    ensures ReactsTyped(c, s, m, React(c, s.msgs, m, s.msgs[m], ReqOf(s, m), x))
  {
    assert TypedAt(c, s.msgs, s.reqs, m);
    hide HandlePut, HandleAtomic, HandleGet, HandleResponse, HandlePtlAck, HandleBxiAck, ReactsTyped, AllTyped, Typed;
    match s.msgs[m].typ
    case PtlPut => PutReactsTyped(c, s, m, x);
    case PtlAtomic => PutReactsTyped(c, s, m, x);
    case PtlGet => GetReactsTyped(c, s, m, x, GetResponse);
    case PtlFetchAtomic => GetReactsTyped(c, s, m, x, FetchAtomicResponse);
    case GetResponse => ReplyReactsTyped(c, s, m);
    case FetchAtomicResponse => ReplyReactsTyped(c, s, m);
    case PtlAck => ReplyReactsTyped(c, s, m);
    case E2eAck => AckReactsTyped(c, s, m);
  }

  lemma HeaderTyped(c: Config, s: State, m: MsgId)
    requires Types(c, s) && m in s.msgs
    ensures Types(c, PushHeader(s, m))
  {
    hide Types;
    TypesKept(c, s, PushHeader(s, m));
  }

  lemma ReleaseTyped(c: Config, s: State, n: Nid, ch: Channel, id: ChargeId)
    requires Types(c, s)
    ensures Types(c, ReleaseAt(c, s, n, ch, id))
    ensures ReleaseAt(c, s, n, ch, id).fault == s.fault || ReleaseAt(c, s, n, ch, id).fault.ReleasePanic?
  {
    hide AllTyped, AcksUnwatched, ReleaseEntry;
    var t := ReleaseAt(c, s, n, ch, id);
    assert t.at.e2e == s.at.e2e;
    UnwatchedKept(s.msgs, s.at, t.at);
  }

  lemma UnwatchedKept(msgs: Msgs, at: Places, at': Places)
    requires AcksUnwatched(msgs, at) && at'.e2e == at.e2e
    ensures AcksUnwatched(msgs, at')
  {
    forall n, m | Count(at'.e2e, n, m) > 0 ensures m in msgs && !msgs[m].typ.E2eAck? {
      assert Count(at.e2e, n, m) > 0;
    }
  }

  lemma AnswerTyped(c: Config, s: State, m: MsgId, q: Req, reply: Reply)
    requires Types(c, s) && Live(s, m) && s.next !in s.msgs
    requires q.command == ReqOf(s, m).command && Typed(c, s.msgs, Back(s, m, reply), q.command)
    ensures Types(c, Answer(s, m, q, reply))
  {
    hide Types, Typed;
    var back := Back(s, m, reply);
    var s1 := if back.answers.Some? then s.(msgs := Reference(s.msgs, m)) else s;
    TypesKept(c, s, s1);
    BackTyped(c, s.msgs, s1.msgs, back, q.command);
    SpawnTyped(c, s1, Port(back.initiator, ResponseVn(back.service)), back, q.(token := s.next));
  }

  lemma WriteTyped(c: Config, s: State, r: ReqId, q: Req)
    requires Types(c, s) && r in s.reqs && q.command == s.reqs[r].command
    ensures Types(c, SetReq(s, r, q))
  {
    hide Types;
    TypesKept(c, s, SetReq(s, r, q));
  }

  lemma ApplyTyped(c: Config, s: State, m: MsgId, a: Reaction)
    requires Types(c, s) && Live(s, m) && s.next !in s.msgs && ReactsTyped(c, s, m, a)
    ensures Types(c, Apply(c, s, m, a))
    ensures Apply(c, s, m, a).fault == s.fault || Apply(c, s, m, a).fault.ReleasePanic?
  {
    hide Types, Typed, ReleaseAt;
    var s1 := if a.keeps then PushHeader(s, m) else s;
    if a.keeps { HeaderTyped(c, s, m); }
    var s2 := s1;
    if a.gives.Some? {
      s2 := ReleaseAt(c, s1, a.gives.value.node, a.gives.value.channel, a.gives.value.id);
      ReleaseTyped(c, s1, a.gives.value.node, a.gives.value.channel, a.gives.value.id);
    }
    if a.sends.Some? {
      var reply := a.sends.value;
      BackTyped(c, s.msgs, s2.msgs, Back(s, m, reply), a.req.command);
      AnswerTyped(c, s2, m, a.req, reply);
    } else {
      WriteTyped(c, s2, s.msgs[m].req, a.req);
    }
  }

  lemma BackTyped(c: Config, msgs: Msgs, msgs': Msgs, msg: Msg, k: Command)
    requires Typed(c, msgs, msg, k)
    requires forall k :: k in msgs ==> k in msgs' && SameButCount(msgs[k], msgs'[k])
    ensures Typed(c, msgs', msg, k)
  {
  }

  // ---------------------------------------------------------------- steps

  ghost predicate TypeSound(c: Config, s: State) {
    Sound(s) && !TypeFault(s.fault) && (s.fault.NoFault? ==> Types(c, s))
  }

  lemma SoundOf(c: Config, s: State)
    requires TypeSound(c, s)
    ensures Sound(s) && (s.fault.NoFault? ==> Types(c, s) && Parking(s))
  {
    hide Types, Exact, Kept;
  }

  lemma RetryBound(c: Config, s: State, m: MsgId)
    requires m in s.msgs && TypedAt(c, s.msgs, s.reqs, m)
    ensures s.msgs[m].retry <= c.maxRetries
  {
  }

  lemma DeliverTypes(c: Config, s: State, m: MsgId, x: Match)
    requires TypeSound(c, s)
    ensures TypeSound(c, Deliver(c, s, m, x))
  {
    hide Sound, Exact, Types, React, Apply, Unref, Kept, Shrunk;
    DeliverSound(c, s, m, x);
    if s.fault.NoFault? && m in s.at.net {
      var s1 := Arrived(s, m);
      DeliverParts(c, s, m, x);
      TypesKept(c, s, s1);
      ReactionTyped(c, s1, m, x);
      ApplyTyped(c, s1, m, ReactionTo(c, s1, m, x));
      ShrunkTyped(c, Apply(c, s1, m, ReactionTo(c, s1, m, x)), Deliver(c, s, m, x));
    }
  }

  lemma ConsumeTypes(c: Config, s: State, m: MsgId)
    requires TypeSound(c, s)
    ensures TypeSound(c, ConsumeHeader(s, m))
  {
    hide Sound, Exact, Types, Unref, Kept, Shrunk;
    ConsumeSound(s, m);
    if s.fault.NoFault? && m in s.at.uh {
      var s1 := s.(at := s.at.(uh := s.at.uh - multiset{m}));
      ConsumeParts(s, m);
      TypesKept(c, s, Noted(s1, m));
      ShrunkTyped(c, Noted(s1, m), ConsumeHeader(s, m));
    }
  }

  lemma ExpiredTypes(c: Config, s: State, n: Nid)
    requires Types(c, s) && Q(s.at.e2e, n) != []
    ensures Types(c, Expired(s, n))
    ensures var m := Q(s.at.e2e, n)[0]; m in s.msgs && !s.msgs[m].typ.E2eAck? && TypedAt(c, s.msgs, s.reqs, m)
  {
    PopCount(s.at.e2e, n);
  }

  lemma RetransmitTypes(c: Config, s: State, n: Nid, m: MsgId)
    requires Types(c, s) && Live(s, m) && s.next !in s.msgs && !s.msgs[m].typ.E2eAck?
    requires s.msgs[m].retry < c.maxRetries
    ensures Types(c, Retransmit(s, n, m))
  {
    assert TypedAt(c, s.msgs, s.reqs, m);
    var msg := s.msgs[m];
    var s1 := s.(msgs := s.msgs[m := msg.(retry := msg.retry + 1)]);
    forall k | k in s.msgs ensures s.msgs[k].retry <= c.maxRetries { assert TypedAt(c, s.msgs, s.reqs, k); }
    Retyped(c, s.msgs, s1.msgs, s.reqs, s1.reqs);
    hide AllTyped;
    SpawnTyped(c, s1, Port(n, VnOf(msg)), RetryOf(msg), ReqOf(s, m));
  }

  lemma TimeoutTypes(c: Config, s: State, n: Nid)
    requires TypeSound(c, s)
    ensures TypeSound(c, Timeout(c, s, n))
  {
    hide Sound, Exact, Types, Unref, Kept, Shrunk, Retransmit;
    TimeoutSound(c, s, n);
    if s.fault.NoFault? && Q(s.at.e2e, n) != [] {
      var m, s1 := Q(s.at.e2e, n)[0], Expired(s, n);
      TimeoutParts(c, s, n);
      ExpiredTypes(c, s, n);
      if Retries(c, s1.msgs[m], ReqOf(s1, m)) {
        RetransmitTypes(c, s1, n, m);
        RetransmitTaken(s1, n, m);
        ShrunkTyped(c, Retransmit(s1, n, m), Timeout(c, s, n));
      } else {
        ShrunkTyped(c, s1, Timeout(c, s, n));
      }
    }
  }

  lemma IssueTypes(c: Config, s: State, k: Command)
    requires TypeSound(c, s)
    ensures TypeSound(c, Issue(s, k))
  {
    hide Sound, Exact, AllTyped, Spawn;
    IssueSound(s, k);
    var ni := Interface(k.src, k.srcPid);
    if s.fault.NoFault? && CqFree(s, ni) > 0 {
      SoundFresh(s);
      SpawnTyped(c, s.(cq := s.cq[ni := CqFree(s, ni) - 1]), Port(k.src, RequestVn(k.service)),
                 FirstMessage(k, s.next), NewRequest(k, s.next));
    }
  }

  lemma SoundFresh(s: State)
    requires Sound(s) && s.fault.NoFault?
    ensures s.next !in s.msgs && s.next !in s.reqs
  {
    hide Exact, Kept;
    FreshRequest(s, multiset{}, multiset{});
  }

  lemma SentTypes(c: Config, s: State, n: Nid, m: MsgId)
    requires Types(c, s) && Live(s, m)
    ensures Types(c, Dispatch(c, s, n, m)) && Dispatch(c, s, n, m).fault == s.fault
  {
    hide AllTyped;
    var t := Dispatch(c, s, n, m);
    DispatchRetyped(c, s, t, m);
    PushCount(s.at.e2e, n, m);
    forall n', k | Count(t.at.e2e, n', k) > 0 ensures k in t.msgs && !t.msgs[k].typ.E2eAck? {
      assert Count(s.at.e2e, n', k) > 0 || (k == m && Watched(c, s.msgs[m]));
    }
  }

  lemma DispatchRetyped(c: Config, s: State, t: State, m: MsgId)
    requires AllTyped(c, s.msgs, s.reqs) && Live(s, m)
    requires t.msgs == s.msgs || t.msgs == Reference(s.msgs, m)
    requires t.reqs == s.reqs[s.msgs[m].req := OnDispatch(c, s.msgs[m], ReqOf(s, m))]
    ensures AllTyped(c, t.msgs, t.reqs)
  {
    forall k | k in s.msgs ensures s.msgs[k].retry <= c.maxRetries { assert TypedAt(c, s.msgs, s.reqs, k); }
    Retyped(c, s.msgs, t.msgs, s.reqs, t.reqs);
  }

  lemma TransmitTypes(c: Config, s: State, p: Port)
    requires TypeSound(c, s)
    ensures TypeSound(c, Transmit(c, s, p))
  {
    hide Sound, Exact, Dispatch, Types;
    TransmitSound(c, s, p);
    if s.fault.NoFault? && Q(s.at.tx, p) != [] {
      var m, popped := Q(s.at.tx, p)[0], Popped(s, p);
      if Live(s, m) {
        var msg, q := s.msgs[m], ReqOf(s, m);
        TypesKept(c, s, popped);
        if !NeedsCredit(c, msg) {
          SentTypes(c, popped, p.nid, m);
        } else {
          match CheckFlowctrl(c, FlowOf(s, p.nid), ChargedChannel(msg, q))
          case NegativeCredit =>
          case Refused(f) => TypesKept(c, s, Park(popped.(flows := s.flows[p.nid := f]), p, m));
          case Granted(f) =>
            var charged := ChargeFor(popped, p.nid, f, msg, q);
            TypesKept(c, s, charged);
            SentTypes(c, charged, p.nid, m);
        }
      }
    }
  }

  lemma NextTypes(c: Config, s: State, t: Step)
    requires TypeSound(c, s)
    ensures TypeSound(c, Next(c, s, t))
  {
    hide TypeSound, Issue, Transmit, Deliver, Timeout, ConsumeHeader;
    match t
    case IssueStep(k) => IssueTypes(c, s, k);
    case TransmitStep(p) => TransmitTypes(c, s, p);
    case DeliverStep(m, x) => DeliverTypes(c, s, m, x);
    case TimeoutStep(n) => TimeoutTypes(c, s, n);
    case HeaderStep(m) => ConsumeTypes(c, s, m);
  }

  lemma {:induction false} RunTypes(c: Config, steps: seq<Step>)
    ensures TypeSound(c, Run(c, steps))
  {
    hide Sound;
    if steps == [] {
      InitSound();
    } else {
      RunTypes(c, steps[..|steps| - 1]);
      NextTypes(c, Run(c, steps[..|steps| - 1]), steps[|steps| - 1]);
    }
  }

  /** Both panics of the E2E circuit are unreachable and no message is retried more than `maxRetries`
      times, in every run. */
  lemma E2ePanicsUnreachable(c: Config, steps: seq<Step>)
    ensures var s := Run(c, steps);
      && !s.fault.AckWithoutAnswer? && !s.fault.RetryAboveMaximum?
      && (s.fault.NoFault? ==> forall m :: m in s.msgs ==> s.msgs[m].retry <= c.maxRetries)
  {
    RunTypes(c, steps);
    var s := Run(c, steps);
    if s.fault.NoFault? {
      forall m | m in s.msgs ensures s.msgs[m].retry <= c.maxRetries { assert TypedAt(c, s.msgs, s.reqs, m); }
    }
  }
}
