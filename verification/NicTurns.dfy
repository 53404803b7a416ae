/** What one turn of an actor does to a reachable machine: which message moves, where it goes, what is sent in answer,
    and what its request becomes. */
module NicTurns {
  import opened Wire
  import opened Queues
  import opened FlowControl
  import opened Nic
  import opened NicRefs
  import opened NicParking
  import opened NicRefRuns
  import opened NicTypes
  import opened NicOnce
  import opened NicFrames

  // ---------------------------------------------------------------- queues

  /** Port `p` of node `n` carries messages of kind `typ` for requests of command `k`: the service flag of the command
      tells the service networks from the compute networks, and requests have networks of their own. */
  predicate Carries(p: Port, n: Nid, typ: MsgType, k: Command) {
    && p.nid == n
    && (p.vn.ServiceRequest? || p.vn.ServiceResponse? <==> k.service)
    && (p.vn.ServiceResponse? || p.vn.ComputeResponse? <==>
          typ.PtlAck? || typ.E2eAck? || typ.GetResponse? || typ.FetchAtomicResponse?)
  }

  lemma VnCarries(p: Port, n: Nid, msg: Msg, k: Command)
    requires msg.service == k.service
    ensures Carries(p, n, msg.typ, k) <==> p == Port(n, VnOf(msg))
  {
  }

  /** In every run, whatever waits in the transmit queue or the deque of a port belongs there: service and compute
      traffic, and requests and answers, never share a virtual network. */
  lemma QueuesByNetwork(c: Config, steps: seq<Step>, p: Port, m: MsgId)
    requires var s := Run(c, steps); s.fault.NoFault? && (m in Q(s.at.tx, p) || m in Q(s.at.parked, p))
    ensures var s := Run(c, steps);
      Live(s, m) && Carries(p, s.msgs[m].initiator, s.msgs[m].typ, ReqOf(s, m).command)
  {
    var s := Run(c, steps);
    RunTypes(c, steps);
    SoundOf(c, s);
    OwnedOf(s);
    CountIn(s.at.tx, p, m);
    CountIn(s.at.parked, p, m);
    assert Waiting(s.at, p, m) > 0;
    hide Run, Types, Sound;
    LiveOwned(s, m);
    MessageTyped(c, s, m);
    VnCarries(p, s.msgs[m].initiator, s.msgs[m], ReqOf(s, m).command);
  }

  /** Of all transmit queues, only those of `p` that `Carries` are longer, by message `m`. */
  ghost predicate Joined(tx: Queues<Port>, tx': Queues<Port>, n: Nid, typ: MsgType, k: Command, m: MsgId) {
    forall p {:trigger Q(tx', p)} :: Q(tx', p) == Q(tx, p) + if Carries(p, n, typ, k) then [m] else []
  }

  ghost predicate SameQueues(tx: Queues<Port>, tx': Queues<Port>) {
    forall p {:trigger Q(tx', p)} :: Q(tx', p) == Q(tx, p)
  }

  lemma PushJoined(tx: Queues<Port>, n: Nid, msg: Msg, k: Command, m: MsgId)
    requires msg.service == k.service
    ensures Joined(tx, Push(tx, Port(n, VnOf(msg)), m), n, msg.typ, k, m)
  {
    forall p ensures Carries(p, n, msg.typ, k) <==> p == Port(n, VnOf(msg)) { VnCarries(p, n, msg, k); }
    hide VnOf, Carries;
  }

  /** A message that was queued outlives the destructors that follow. */
  lemma QueuedSurvives(u: State, t: State, m: MsgId)
    requires Settles(u, t) && m in u.msgs && HeldBy(u.at, m, u.msgs[m]) > 0
    ensures m in t.msgs && SameButCount(u.msgs[m], t.msgs[m])
  {
    assert Survives(u.msgs, t.msgs, u.at, m);
    hide RefInv, Buried;
  }

  // ---------------------------------------------------------------- the user

  /** The first message of a request: it asks for the bytes of a Get, and carries those of the others. */
  predicate Opens(msg: Msg, k: Command, r: ReqId) {
    && msg.initiator == k.src && msg.target == k.dst && msg.req == r && msg.retry == 0 && msg.answers == None
    && msg.fail == NiOk
    && match k.typ
       case PutReq => msg.typ.PtlPut? && msg.size == k.length
       case AtomicReq => msg.typ.PtlAtomic? && msg.size == k.length
       case FetchAtomicReq => msg.typ.PtlFetchAtomic? && msg.size == k.length
       case GetReq => msg.typ.PtlGet? && msg.size == 64
  }

  /** A new request: nothing happened yet, and only a Put or Atomic can ask for an ACK. */
  predicate Begun(q: Req, k: Command) {
    && q.phase.Created? && q.matched == None && q.initiatorLog == [] && q.targetLog == []
    && q.command == if PutLike(k.typ) then k else k.(ackReq := NoAckReq)
  }

  /** What a command does in every run: with a free slot in the command queue its request begins and takes the slot,
      and its first message joins a transmit queue; without one the caller waits. */
  lemma IssueDecides(c: Config, steps: seq<Step>, k: Command)
    requires Run(c, steps).fault.NoFault?
    ensures var s, t := Run(c, steps), Next(c, Run(c, steps), IssueStep(k));
      if CqFree(s, Interface(k.src, k.srcPid)) <= 0 then t == s
      else
        && t.next == s.next + 1 && t.fault.NoFault? && s.next !in s.reqs && s.next !in s.msgs
        && s.next in t.reqs && s.next in t.msgs && Begun(t.reqs[s.next], k) && Opens(t.msgs[s.next], k, s.next)
        && Joined(s.at.tx, t.at.tx, k.src, t.msgs[s.next].typ, k, s.next)
        && t.at == s.at.(tx := t.at.tx) && t.sent == s.sent
        && forall ni :: CqFree(t, ni) == CqFree(s, ni) - if ni == Interface(k.src, k.srcPid) then 1 else 0
  {
    var s := Run(c, steps);
    RunTypes(c, steps);
    hide Run, TypeSound;
    FreshNumber(c, s);
    var msg := FirstMessage(k, s.next);
    PushJoined(s.at.tx, k.src, msg, k, s.next);
    hide Joined, Push;
  }

  lemma FreshNumber(c: Config, s: State)
    requires TypeSound(c, s) && s.fault.NoFault?
    ensures s.next !in s.reqs && s.next !in s.msgs
  {
    hide Types, Sound;
    SoundFresh(s);
  }

  // ---------------------------------------------------------------- the E2E actor

  /** A message whose timer expires is sent again if it has tries left and its request has not moved on: it is CREATED
      or RECEIVED still, or for a Portals ACK not FINISHED yet. */
  predicate SentAgain(c: Config, msg: Msg, q: Req) {
    msg.retry < c.maxRetries && if msg.typ.PtlAck? then !q.phase.Finished? else q.phase.Created? || q.phase.Received?
  }

  /** One more try of `msg`, that reports no failure and answers nothing. */
  predicate CopyOf(copy: Msg, msg: Msg) {
    && copy.retry == msg.retry + 1 && copy.typ == msg.typ && copy.req == msg.req && copy.service == msg.service
    && copy.initiator == msg.initiator && copy.target == msg.target && copy.size == msg.size
    && copy.fail == NiOk && copy.answers == None
  }

  /** The oldest message of the E2E queue of node `n` goes; either one copy of it joins the transmit queue it came
      from, or no message is made and no transmit queue changes. Everything else in flight stays. */
  ghost predicate Expires(c: Config, s: State, n: Nid, t: State)
    requires Q(s.at.e2e, n) != []
  {
    && t.fault.NoFault? && Live(s, Q(s.at.e2e, n)[0])
    && (forall k {:trigger Q(t.at.e2e, k)} :: Q(t.at.e2e, k) == if k == n then Q(s.at.e2e, n)[1..] else Q(s.at.e2e, k))
    && t.at.net == s.at.net && t.at.uh == s.at.uh && t.at.parked == s.at.parked && t.sent == s.sent
    && var m := Q(s.at.e2e, n)[0];
       var msg, q := s.msgs[m], ReqOf(s, m);
       if SentAgain(c, msg, q)
       then t.next == s.next + 1 && s.next in t.msgs && CopyOf(t.msgs[s.next], msg)
            && Joined(s.at.tx, t.at.tx, n, msg.typ, q.command, s.next)
       else t.next == s.next && SameQueues(s.at.tx, t.at.tx)
  }

  /** What the E2E actor does when a timer expires, in every run. */
  lemma TimeoutDecides(c: Config, steps: seq<Step>, n: Nid)
    requires Run(c, steps).fault.NoFault? && Q(Run(c, steps).at.e2e, n) != []
    ensures Expires(c, Run(c, steps), n, Next(c, Run(c, steps), TimeoutStep(n)))
  {
    RunTypes(c, steps);
    hide Run, TypeSound, Timeout, Expires;
    TimeoutReady(c, Run(c, steps), n);
    TimeoutTurn(c, Run(c, steps), n);
  }

  lemma TimeoutReady(c: Config, s: State, n: Nid)
    requires TypeSound(c, s) && s.fault.NoFault? && Q(s.at.e2e, n) != []
    ensures Live(s, Q(s.at.e2e, n)[0]) && s.next !in s.msgs
    ensures var m, t := Q(s.at.e2e, n)[0], Timeout(c, s, n);
      && s.msgs[m].initiator == n && s.msgs[m].service == ReqOf(s, m).command.service
      && Settles(if SentAgain(c, s.msgs[m], ReqOf(s, m)) then Retransmit(Expired(s, n), n, m) else Expired(s, n), t)
  {
    var m := Q(s.at.e2e, n)[0];
    hide TypeSound, Sound, Types, Exact, Kept, Settles, Retransmit, AckedInTime, Timeout;
    SoundOf(c, s);
    TimeoutParts(c, s, n);
    OwnedOf(s);
    ExpiredTypes(c, s, n);
    LiveOwned(s, m);
    MessageTyped(c, s, m);
    RetryBound(c, s, m);
    AgainRetries(c, s.msgs[m], ReqOf(s, m));
  }

  lemma AgainRetries(c: Config, msg: Msg, q: Req)
    requires msg.retry <= c.maxRetries
    ensures Retries(c, msg, q) == SentAgain(c, msg, q)
  {
  }

  lemma TimeoutTurn(c: Config, s: State, n: Nid)
    requires s.fault.NoFault? && Q(s.at.e2e, n) != [] && Live(s, Q(s.at.e2e, n)[0]) && s.next !in s.msgs
    requires var m, t := Q(s.at.e2e, n)[0], Timeout(c, s, n);
      && s.msgs[m].initiator == n && s.msgs[m].service == ReqOf(s, m).command.service
      && Settles(if SentAgain(c, s.msgs[m], ReqOf(s, m)) then Retransmit(Expired(s, n), n, m) else Expired(s, n), t)
    ensures Expires(c, s, n, Timeout(c, s, n))
  {
    var m, t := Q(s.at.e2e, n)[0], Timeout(c, s, n);
    hide Timeout, Settles, Retransmit, Joined, SentAgain, CopyOf, Pop, Push;
    PoppedQueues(s.at.e2e, n);
    if SentAgain(c, s.msgs[m], ReqOf(s, m)) {
      SentAgainTurn(s, n, t);
    } else {
      SettledRest(Expired(s, n), t);
    }
  }

  lemma SentAgainTurn(s: State, n: Nid, t: State)
    requires Q(s.at.e2e, n) != [] && Live(s, Q(s.at.e2e, n)[0]) && s.next !in s.msgs
    requires var m := Q(s.at.e2e, n)[0];
      && s.msgs[m].initiator == n && s.msgs[m].service == ReqOf(s, m).command.service
      && Settles(Retransmit(Expired(s, n), n, m), t)
    ensures var m := Q(s.at.e2e, n)[0];
      && t.next == s.next + 1 && s.next in t.msgs && CopyOf(t.msgs[s.next], s.msgs[m]) && t.fault == s.fault
      && t.at == s.at.(e2e := Pop(s.at.e2e, n), tx := t.at.tx) && t.sent == s.sent
      && Joined(s.at.tx, t.at.tx, n, s.msgs[m].typ, ReqOf(s, m).command, s.next)
  {
    var m := Q(s.at.e2e, n)[0];
    var msg, q, u := s.msgs[m], ReqOf(s, m), Retransmit(Expired(s, n), n, m);
    hide Settles, Retransmit, Joined, CopyOf, Pop, Push;
    RetransmitShape(Expired(s, n), n, m);
    SettledRest(u, t);
    QueuedSurvives(u, t, s.next);
    SameCopy(u.msgs[s.next], t.msgs[s.next], msg);
    PushJoined(s.at.tx, n, msg, q.command, s.next);
  }

  lemma SettledRest(u: State, t: State)
    requires Settles(u, t)
    ensures u.fault == t.fault && u.at == t.at && u.next == t.next && u.sent == t.sent
  {
  }

  lemma PoppedQueues(e2e: Queues<Nid>, n: Nid)
    requires Q(e2e, n) != []
    ensures forall k {:trigger Q(Pop(e2e, n), k)} :: Q(Pop(e2e, n), k) == if k == n then Q(e2e, n)[1..] else Q(e2e, k)
  {
  }

  lemma SameCopy(copy: Msg, copy': Msg, msg: Msg)
    requires CopyOf(copy, msg) && SameButCount(copy, copy')
    ensures CopyOf(copy', msg)
  {
  }

  lemma RetransmitShape(s: State, n: Nid, m: MsgId)
    requires Live(s, m) && s.msgs[m].initiator == n && s.next !in s.msgs
    ensures var u := Retransmit(s, n, m);
      && u.next == s.next + 1 && s.next in u.msgs && CopyOf(u.msgs[s.next], s.msgs[m])
      && u.at == s.at.(tx := Push(s.at.tx, Port(n, VnOf(s.msgs[m])), s.next)) && u.sent == s.sent && u.fault == s.fault
      && HeldBy(u.at, s.next, u.msgs[s.next]) > 0
  {
    PushCount(s.at.tx, Port(n, VnOf(s.msgs[m])), s.next);
  }

  // ---------------------------------------------------------------- the initiator

  /** The head `m` of the transmit queue of `p` is on the network now; if it is a message the other side must confirm,
      the E2E actor watches it. A request frees its slot of the command queue. */
  ghost predicate Departs(c: Config, s: State, p: Port, m: MsgId, t: State)
    requires Q(s.at.tx, p) != [] && Live(s, m)
  {
    var msg, q := s.msgs[m], ReqOf(s, m);
    && (forall k {:trigger Q(t.at.tx, k)} :: Q(t.at.tx, k) == if k == p then Q(s.at.tx, p)[1..] else Q(s.at.tx, k))
    && t.at.parked == s.at.parked && t.at.net == s.at.net + multiset{m} && t.at.uh == s.at.uh && t.sent == s.sent + {m}
    && (forall n {:trigger Q(t.at.e2e, n)} ::
          Q(t.at.e2e, n) == Q(s.at.e2e, n) + if n == p.nid && !c.e2eOff && !msg.typ.E2eAck? then [m] else [])
    && (forall ni {:trigger CqFree(t, ni)} ::
          CqFree(t, ni) == CqFree(s, ni) + if IsRequest(msg.typ) && ni == Interface(q.command.src, q.command.srcPid)
                                           then 1 else 0)
  }

  /** The head of the transmit queue now waits behind whatever waits for credit at `p`. */
  ghost predicate StandsBack(s: State, p: Port, m: MsgId, t: State)
    requires Q(s.at.tx, p) != []
  {
    && (forall k {:trigger Q(t.at.tx, k)} :: Q(t.at.tx, k) == if k == p then Q(s.at.tx, p)[1..] else Q(s.at.tx, k))
    && (forall k {:trigger Q(t.at.parked, k)} :: Q(t.at.parked, k) == Q(s.at.parked, k) + if k == p then [m] else [])
    && t.at.net == s.at.net && t.at.uh == s.at.uh && t.at.e2e == s.at.e2e && t.sent == s.sent && t.cq == s.cq
  }

  /** What the head of a transmit queue meets: with E2E on, a message that was not sent before and is no E2E ACK needs a
      credit of every enabled layer, and a slot of its node's E2E semaphore. */
  ghost predicate Leaves(c: Config, s: State, p: Port, t: State)
    requires Q(s.at.tx, p) != []
  {
    var m := Q(s.at.tx, p)[0];
    && Live(s, m)
    && var msg, q, f := s.msgs[m], ReqOf(s, m), FlowOf(s, p.nid);
       if c.e2eOff || msg.typ.E2eAck? || msg.retry > 0 then Departs(c, s, p, m, t)
       else if Exhausted(c, f, ChargedChannel(msg, q)) then StandsBack(s, p, m, t)
       else if f.entries <= 0 then t == s
       else Departs(c, s, p, m, t)
  }

  /** What a turn of an initiator does, in every run. */
  lemma TransmitDecides(c: Config, steps: seq<Step>, p: Port)
    requires Run(c, steps).fault.NoFault? && Q(Run(c, steps).at.tx, p) != []
    ensures var s, t := Run(c, steps), Next(c, Run(c, steps), TransmitStep(p));
      t.fault.NoFault? ==> Leaves(c, s, p, t)
  {
    var s := Run(c, steps);
    RunTypes(c, steps);
    hide Run, Types, Sound, Transmit, Leaves;
    SoundOf(c, s);
    OwnedOf(s);
    HeadUnsent(s, p);
    LiveOwned(s, Q(s.at.tx, p)[0]);
    HeadNotParked(s, p);
    TransmitTurn(c, s, p);
  }

  lemma HeadNotParked(s: State, p: Port)
    requires Parking(s) && Q(s.at.tx, p) != []
    ensures Q(s.at.tx, p)[0] !in Q(s.at.parked, p)
  {
    var m := Q(s.at.tx, p)[0];
    PopCount(s.at.tx, p);
    CountIn(s.at.parked, p, m);
    assert Waiting(s.at, p, m) > 0;
  }

  lemma TransmitTurn(c: Config, s: State, p: Port)
    requires s.fault.NoFault? && Q(s.at.tx, p) != [] && Live(s, Q(s.at.tx, p)[0])
    requires Q(s.at.tx, p)[0] !in Q(s.at.parked, p)
    ensures Transmit(c, s, p).fault.NoFault? ==> Leaves(c, s, p, Transmit(c, s, p))
  {
    var m, f := Q(s.at.tx, p)[0], FlowOf(s, p.nid);
    var msg, q, popped := s.msgs[m], ReqOf(s, m), Popped(s, p);
    var ch := ChargedChannel(msg, q);
    CheckVerdict(c, f, ch);
    CheckMovesCredits(c, f, ch);
    hide CheckFlowctrl, ChargedChannel, Departs, StandsBack, Exhausted, Dispatch, ChargeFor;
    if !NeedsCredit(c, msg) {
      DispatchDeparts(c, s, p, popped);
    } else {
      match CheckFlowctrl(c, f, ch)
      case Granted(g) => if f.entries > 0 { DispatchDeparts(c, s, p, ChargeFor(popped, p.nid, g, msg, q)); }
      case Refused(g) => ParkStands(s, p, popped.(flows := s.flows[p.nid := g]));
      case NegativeCredit =>
    }
  }

  /** A check that does not panic refuses exactly if some layer has no credit left. */
  lemma CheckVerdict(c: Config, f: Flow, ch: Channel)
    ensures var v := CheckFlowctrl(c, f, ch); !v.NegativeCredit? ==> (v.Refused? <==> Exhausted(c, f, ch))
  {
  }

  lemma DispatchDeparts(c: Config, s: State, p: Port, u: State)
    requires Q(s.at.tx, p) != [] && Live(s, Q(s.at.tx, p)[0]) && u.msgs == s.msgs && u.reqs == s.reqs
    requires u.at == s.at.(tx := Pop(s.at.tx, p)) && u.sent == s.sent && u.cq == s.cq
    ensures Departs(c, s, p, Q(s.at.tx, p)[0], Dispatch(c, u, p.nid, Q(s.at.tx, p)[0]))
  {
    hide OnDispatch;
  }

  lemma ParkStands(s: State, p: Port, u: State)
    requires Q(s.at.tx, p) != [] && Q(s.at.tx, p)[0] !in Q(s.at.parked, p)
    requires u.at == s.at.(tx := Pop(s.at.tx, p)) && u.sent == s.sent && u.cq == s.cq
    ensures StandsBack(s, p, Q(s.at.tx, p)[0], Park(u, p, Q(s.at.tx, p)[0]))
  {
  }

  // ---------------------------------------------------------------- the target

  /** The entry that was found wants a Portals ACK sent back. */
  predicate WantsAck(q: Req, x: Match) {
    x.Matched? && !x.ackDisable && !q.command.ackReq.NoAckReq?
  }

  /** A request message gets an ACK: a Portals ACK if it wants one, else an E2E ACK if E2E is on. A Put that found no
      entry reports that in a Portals ACK; an Atomic does not. */
  predicate Acknowledged(c: Config, msg: Msg, q: Req, x: Match) {
    && q.phase.Created? && (msg.typ.PtlPut? || msg.typ.PtlAtomic?)
    && if x.Matched? then WantsAck(q, x) || !c.e2eOff else msg.typ.PtlPut? && !q.command.ackReq.NoAckReq?
  }

  /** The kind of message that is sent in answer to `msg`. */
  function AnswerKind(c: Config, msg: Msg, q: Req, x: Match): Option<MsgType> {
    if Acknowledged(c, msg, q, x) && !c.quickAcks then Some(if x.Matched? && !WantsAck(q, x) then E2eAck else PtlAck)
    else if msg.typ.PtlGet? && q.phase.Created? then Some(GetResponse)
    else if msg.typ.PtlFetchAtomic? && q.phase.Created? then Some(FetchAtomicResponse)
    else if !c.e2eOff && (msg.typ.PtlAck? || (IsReply(msg.typ) && (q.phase.Created? || q.phase.Received?)))
      then Some(E2eAck)
    else None
  }

  /** The answer travels back to the node the message came from. A request is answered with the outcome of matching it
      and a response carries the matched bytes; what confirms a reply has the retry count of the reply. */
  predicate AnswerTo(answer: Msg, typ: MsgType, m: MsgId, msg: Msg, x: Match) {
    && answer.typ == typ && answer.initiator == msg.target && answer.target == msg.initiator && answer.req == msg.req
    && answer.retry == (if IsRequest(msg.typ) then 0 else msg.retry)
    && answer.fail == (if IsRequest(msg.typ) && x.NoMatch? then x.fail else NiOk)
    && answer.answers == (if typ.PtlAck? || typ.E2eAck? then Some(m) else None)
    && answer.size == match typ case PtlAck => ACK_SIZE case E2eAck => ACK_SIZE
                                case _ => if x.Matched? then x.mlength else 0
  }

  /** The state of the request afterwards. */
  function PhaseAfter(c: Config, msg: Msg, q: Req, x: Match): Phase {
    if msg.typ.E2eAck? || (Acknowledged(c, msg, q, x) && c.quickAcks) then Finished
    else if IsReply(msg.typ) then if q.phase.Finished? then Finished else Answered
    else if q.phase.Created? && x.Matched? then Received
    else q.phase
  }

  /** A request message is matched once, by the first of its copies that finds an entry. */
  predicate FirstMatch(msg: Msg, q: Req, x: Match) {
    IsRequest(msg.typ) && q.phase.Created? && x.Matched?
  }

  /** A credit comes back to the port that message kind `typ` left from, at node `n`. */
  predicate Returns(c: Config, p: Port, n: Nid, typ: MsgType, k: Command) {
    !c.e2eOff && (c.maxToProcess > 0 || c.maxToTarget > 0) && Carries(p, n, typ, k)
  }

  /** The waiting messages that go back to their transmit queue: those at the port the request left from, once it is
      settled in quick mode or by a reply, and those at the port of the message an E2E ACK confirms. */
  ghost predicate Resumes(c: Config, s: State, m: MsgId, x: Match, p: Port)
    requires Live(s, m)
  {
    var msg, q := s.msgs[m], ReqOf(s, m);
    || (Acknowledged(c, msg, q, x) && c.quickAcks && Returns(c, p, q.command.src, PtlPut, q.command))
    || (IsReply(msg.typ) && Returns(c, p, msg.target, PtlPut, q.command))
    || (msg.typ.E2eAck? && !q.phase.Finished? && msg.answers.Some? && msg.answers.value in s.msgs
        && Returns(c, p, msg.target, s.msgs[msg.answers.value].typ, q.command))
  }

  /** The record `q'` of the request after the delivery of message `m` with match `x`. */
  predicate RecordAfter(c: Config, s: State, m: MsgId, x: Match, q': Req)
    requires Live(s, m)
  {
    var msg, q := s.msgs[m], ReqOf(s, m);
    && q'.phase == PhaseAfter(c, msg, q, x)
    && q'.matched == if FirstMatch(msg, q, x) then Some(x) else q.matched
  }

  /** The message the delivery sends back, if any. */
  predicate AnswerAfter(c: Config, s: State, m: MsgId, x: Match, t: State)
    requires Live(s, m)
  {
    var msg, typ := s.msgs[m], AnswerKind(c, s.msgs[m], ReqOf(s, m), x);
    && t.next == s.next + (if typ.Some? then 1 else 0)
    && (typ.Some? ==> s.next in t.msgs && AnswerTo(t.msgs[s.next], typ.value, m, msg, x))
  }

  /** Where messages are after the delivery: those that resume come before the answer. */
  ghost predicate PlacesAfter(c: Config, s: State, m: MsgId, x: Match, t: State)
    requires Live(s, m)
  {
    var msg, q := s.msgs[m], ReqOf(s, m);
    var typ := AnswerKind(c, msg, q, x);
    && t.at.net == s.at.net - multiset{m} && t.at.e2e == s.at.e2e && t.sent == s.sent
    && t.at.uh == (if FirstMatch(msg, q, x) && x.list.Overflow? then s.at.uh + multiset{m} else s.at.uh)
    && (forall p {:trigger Q(t.at.parked, p)} ::
          Q(t.at.parked, p) == if Resumes(c, s, m, x, p) then [] else Q(s.at.parked, p))
    && (forall p {:trigger Q(t.at.tx, p)} ::
          Q(t.at.tx, p) == Q(s.at.tx, p)
            + (if Resumes(c, s, m, x, p) then Q(s.at.parked, p) else [])
            + (if typ.Some? && Carries(p, msg.target, typ.value, q.command) then [s.next] else []))
  }

  ghost predicate Handles(c: Config, s: State, m: MsgId, x: Match, t: State) {
    && Live(s, m) && Issued(t, s.msgs[m].req)
    && RecordAfter(c, s, m, x, RecordOf(t, s.msgs[m].req)) && AnswerAfter(c, s, m, x, t) && PlacesAfter(c, s, m, x, t)
  }

  /** A give-back of reaction `a` resumes port `p`. */
  predicate GivesTo(c: Config, a: Reaction, p: Port)
    requires a.Reaction?
  {
    && !c.e2eOff && (c.maxToProcess > 0 || c.maxToTarget > 0)
    && a.gives.Some? && p == Port(a.gives.value.node, a.gives.value.channel.vn)
  }

  /** What a handler decides. */
  ghost predicate Decides(c: Config, s: State, m: MsgId, x: Match, a: Reaction)
    requires Live(s, m)
  {
    var msg, q, typ := s.msgs[m], ReqOf(s, m), AnswerKind(c, s.msgs[m], ReqOf(s, m), x);
    && a.Reaction? && a.req.phase == PhaseAfter(c, msg, q, x)
    && a.req.matched == (if FirstMatch(msg, q, x) then Some(x) else q.matched)
    && (a.keeps <==> FirstMatch(msg, q, x) && x.list.Overflow?)
    && (typ.None? ==> a.sends.None?)
    && (typ.Some? ==> a.sends.Some? && AnswerTo(ReplyTo(s.next, m, msg, a.sends.value), typ.value, m, msg, x))
    && (forall p {:trigger GivesTo(c, a, p)} :: GivesTo(c, a, p) <==> Resumes(c, s, m, x, p))
  }

  lemma SendAckDecides(c: Config, keeps: bool, msg: Msg, q: Req, typ: MsgType, fail: NiFail)
    ensures var a := SendAck(c, keeps, msg, q, typ, fail);
      && a.Reaction? && a.keeps == keeps && a.req.matched == q.matched
      && a.req.phase == (if c.quickAcks then Finished else q.phase)
      && a.sends == (if c.quickAcks then None else Some(Reply(typ, 0, fail, ACK_SIZE)))
      && (if c.quickAcks then a.gives.Some? && a.gives.value.node == q.command.src
                              && a.gives.value.channel.vn == VnOf(msg) else a.gives.None?)
  {
  }

  lemma PutDecides(c: Config, s: State, m: MsgId, x: Match)
    requires Live(s, m) && s.msgs[m].service == ReqOf(s, m).command.service
    requires s.msgs[m].typ.PtlPut? || s.msgs[m].typ.PtlAtomic?
    ensures Decides(c, s, m, x, ReactionTo(c, s, m, x))
  {
    var msg, q := s.msgs[m], ReqOf(s, m);
    forall p ensures Carries(p, q.command.src, PtlPut, q.command) <==> p == Port(q.command.src, VnOf(msg)) { }
    hide VnOf, Carries;
    if q.phase.Created? && x.Matched? {
      AcceptDecides(c, s, m, x);
    } else {
      SendAckDecides(c, false, msg, q, PtlAck, match x case NoMatch(fail) => fail case _ => NiOk);
      hide SendAck;
    }
  }

  lemma AcceptDecides(c: Config, s: State, m: MsgId, x: Match)
    requires Live(s, m) && s.msgs[m].service == ReqOf(s, m).command.service
    requires s.msgs[m].typ.PtlPut? || s.msgs[m].typ.PtlAtomic?
    requires x.Matched? && ReqOf(s, m).phase.Created?
    requires forall p {:trigger Carries(p, ReqOf(s, m).command.src, PtlPut, ReqOf(s, m).command)} ::
      Carries(p, ReqOf(s, m).command.src, PtlPut, ReqOf(s, m).command) <==>
        p == Port(ReqOf(s, m).command.src, VnOf(s.msgs[m]))
    ensures Decides(c, s, m, x, AcceptPut(c, m, s.msgs[m], ReqOf(s, m), x))
  {
    var msg, q := s.msgs[m], ReqOf(s, m);
    var q1 := PutEvent(Recorded(q, m, x));
    assert q1.phase.Received? && q1.matched == Some(x) && q1.command == q.command;
    SendAckDecides(c, x.list.Overflow?, msg, q1, if WantsAck(q, x) then PtlAck else E2eAck, NiOk);
    hide SendAck, VnOf, Carries, PutEvent, Recorded;
  }

  lemma GetDecides(c: Config, s: State, m: MsgId, x: Match)
    requires Live(s, m) && (s.msgs[m].typ.PtlGet? || s.msgs[m].typ.PtlFetchAtomic?)
    ensures Decides(c, s, m, x, ReactionTo(c, s, m, x))
  {
  }

  lemma ReplyDecides(c: Config, s: State, m: MsgId, x: Match)
    requires Live(s, m) && IsReply(s.msgs[m].typ)
    ensures Decides(c, s, m, x, ReactionTo(c, s, m, x))
  {
    var msg, q := s.msgs[m], ReqOf(s, m);
    var channel := RequestChannel(q, msg.initiator);
    forall p ensures Carries(p, msg.target, PtlPut, q.command) <==> p == Port(msg.target, channel.vn) { }
    hide Carries, MaybeIssueSend, IssueAck, IssueReply;
    RepliesCore(q.(phase := Answered), msg.fail);
  }

  lemma RepliesCore(q: Req, fail: NiFail)
    ensures IssueReply(q, fail).phase == q.phase && IssueReply(q, fail).matched == q.matched
    ensures var q' := IssueAck(MaybeIssueSend(q), fail); q'.phase == q.phase && q'.matched == q.matched
  {
  }

  lemma ConfirmationDecides(c: Config, s: State, m: MsgId, x: Match)
    requires Live(s, m) && s.msgs[m].typ.E2eAck? && s.msgs[m].answers.Some? && s.msgs[m].answers.value in s.msgs
    requires s.msgs[s.msgs[m].answers.value].service == ReqOf(s, m).command.service
    ensures Decides(c, s, m, x, ReactionTo(c, s, m, x))
  {
    var msg, q := s.msgs[m], ReqOf(s, m);
    var answered := s.msgs[msg.answers.value];
    forall p ensures Carries(p, msg.target, answered.typ, q.command) <==> p == Port(msg.target, VnOf(answered)) {
      VnCarries(p, msg.target, answered, q.command);
    }
    hide Carries, VnOf;
  }

  lemma ReactionDecides(c: Config, s: State, m: MsgId, x: Match)
    requires Live(s, m) && Types(c, s) && LinkSound(s.msgs, m) && Owned(s.msgs, s.reqs, s.next)
    ensures Decides(c, s, m, x, ReactionTo(c, s, m, x))
  {
    assert TypedAt(c, s.msgs, s.reqs, m);
    hide AllTyped, Decides, ReactionTo;
    match s.msgs[m].typ
    case PtlPut => PutDecides(c, s, m, x);
    case PtlAtomic => PutDecides(c, s, m, x);
    case PtlGet => GetDecides(c, s, m, x);
    case PtlFetchAtomic => GetDecides(c, s, m, x);
    case E2eAck => ConfirmationDecides(c, s, m, x);
    case _ => ReplyDecides(c, s, m, x);
  }

  lemma ReleaseQueues(c: Config, s: State, a: Reaction)
    requires a.Reaction? && a.gives.Some?
    requires !c.e2eOff ==> Releasable(c, FlowOf(s, a.gives.value.node), a.gives.value.channel)
    ensures var at := ReleaseAt(c, s, a.gives.value.node, a.gives.value.channel, a.gives.value.id).at;
      && (forall p {:trigger Q(at.parked, p)} :: Q(at.parked, p) == if GivesTo(c, a, p) then [] else Q(s.at.parked, p))
      && (forall p {:trigger Q(at.tx, p)} ::
            Q(at.tx, p) == Q(s.at.tx, p) + if GivesTo(c, a, p) then Q(s.at.parked, p) else [])
  {
    ReleasePlaces(c, s, a.gives.value.node, a.gives.value.channel, a.gives.value.id);
    hide ReleaseAt, Releasable;
  }

  lemma AnswerQueues(s: State, m: MsgId, q: Req, reply: Reply, k: Command)
    requires Live(s, m) && s.msgs[m].service == k.service && !IsRequest(reply.typ)
    ensures var at := Answer(s, m, q, reply).at;
      at.parked == s.at.parked && Joined(s.at.tx, at.tx, s.msgs[m].target, reply.typ, k, s.next)
  {
  }

  /** What carrying out a decision does to the queues. */
  lemma ApplyQueues(c: Config, s: State, m: MsgId, a: Reaction)
    requires Live(s, m) && a.Reaction? && s.msgs[m].service == ReqOf(s, m).command.service
    requires a.sends.Some? ==> !IsRequest(a.sends.value.typ)
    requires Apply(c, s, m, a).fault.NoFault?
    ensures var u := Apply(c, s, m, a);
      && (forall p {:trigger Q(u.at.parked, p)} ::
            Q(u.at.parked, p) == if GivesTo(c, a, p) then [] else Q(s.at.parked, p))
      && (forall p {:trigger Q(u.at.tx, p)} ::
            Q(u.at.tx, p) == Q(s.at.tx, p)
              + (if GivesTo(c, a, p) then Q(s.at.parked, p) else [])
              + (if a.sends.Some? && Carries(p, s.msgs[m].target, a.sends.value.typ, ReqOf(s, m).command)
                 then [s.next] else []))
  {
    if !c.e2eOff { ApplyFrame(c, s, m, a); }
    var s1 := if a.keeps then PushHeader(s, m) else s;
    var s2 := s1;
    hide Carries, ReleaseAt, Answer, Releasable;
    if a.gives.Some? {
      s2 := ReleaseAt(c, s1, a.gives.value.node, a.gives.value.channel, a.gives.value.id);
      ReleaseQueues(c, s1, a);
    }
    if a.sends.Some? { AnswerQueues(s2, m, a.req, a.sends.value, ReqOf(s, m).command); }
  }

  /** What a handler does when a message is delivered, in every run. */
  lemma DeliveryDecides(c: Config, steps: seq<Step>, m: MsgId, x: Match)
    requires Run(c, steps).fault.NoFault? && m in Run(c, steps).at.net
    ensures var s, t := Run(c, steps), Next(c, Run(c, steps), DeliverStep(m, x));
      t.fault.NoFault? ==> Handles(c, s, m, x, t)
  {
    var s := Run(c, steps);
    RunTypes(c, steps);
    hide Run, TypeSound, Deliver, Handles;
    if Deliver(c, s, m, x).fault.NoFault? { DeliverTurn(c, s, m, x); }
  }

  lemma DeliverTurn(c: Config, s: State, m: MsgId, x: Match)
    requires TypeSound(c, s) && s.fault.NoFault? && m in s.at.net && Deliver(c, s, m, x).fault.NoFault?
    ensures Handles(c, s, m, x, Deliver(c, s, m, x))
  {
    hide Types, Exact, Kept, React, Apply, Deliver, Settles, Sound, Decides, Tame, RecordAfter, AnswerAfter,
         PlacesAfter, LinkSound, Tale, GivesTo, Carries;
    SoundOf(c, s);
    DeliverParts(c, s, m, x);
    OwnedOf(s);
    LiveOwned(s, m);
    MessageTyped(c, s, m);
    var s1, a, t := Arrived(s, m), ReactionTo(c, s, m, x), Deliver(c, s, m, x);
    var u := Apply(c, s1, m, a);
    ReactionDecides(c, s, m, x);
    ReactionTame(c, s, m, x);
    TameSends(s, m, a);
    SettledRest(u, t);
    DecidedReaction(c, s, m, x, a);
    ApplyEffective(c, s1, m, a);
    ApplyShape(c, s1, m, a);
    ApplyQueues(c, s1, m, a);
    DecidedRecord(c, s, m, x, a, u, t);
    DecidedAnswer(c, s, m, x, a, u, t);
    DecidedPlaces(c, s, m, x, a, u, t);
  }

  lemma DecidedReaction(c: Config, s: State, m: MsgId, x: Match, a: Reaction)
    requires Live(s, m) && Decides(c, s, m, x, a)
    ensures a.Reaction?
  {
  }

  lemma DecidedRecord(c: Config, s: State, m: MsgId, x: Match, a: Reaction, u: State, t: State)
    requires Live(s, m) && Decides(c, s, m, x, a) && Settles(u, t)
    requires s.msgs[m].req in u.reqs && SameEvents(a.req, u.reqs[s.msgs[m].req])
    ensures Issued(t, s.msgs[m].req) && RecordAfter(c, s, m, x, RecordOf(t, s.msgs[m].req))
  {
    hide Shrunk, RefInv;
    assert Buried(u.reqs, t.reqs, u.ended, t.ended);
  }

  lemma DecidedAnswer(c: Config, s: State, m: MsgId, x: Match, a: Reaction, u: State, t: State)
    requires Live(s, m) && Decides(c, s, m, x, a) && Tale(Arrived(s, m), m, Effective(c, a), u) && Settles(u, t)
    requires s.msgs[m].service == ReqOf(s, m).command.service
    requires a.sends.Some? ==> forall p {:trigger Q(u.at.tx, p)} ::
      Carries(p, s.msgs[m].target, a.sends.value.typ, ReqOf(s, m).command) ==> s.next in Q(u.at.tx, p)
    ensures AnswerAfter(c, s, m, x, t)
  {
    hide Shrunk, RefInv, Buried;
    if a.sends.Some? {
      var answer := u.msgs[s.next];
      VnCarries(Home(answer), answer.initiator, answer, ReqOf(s, m).command);
      CountIn(u.at.tx, Home(answer), s.next);
      QueuedSurvives(u, t, s.next);
    }
    hide Carries;
  }

  lemma DecidedKind(c: Config, s: State, m: MsgId, x: Match, a: Reaction)
    requires Live(s, m) && Decides(c, s, m, x, a)
    ensures AnswerKind(c, s.msgs[m], ReqOf(s, m), x)
         == match a.sends case Some(reply) => Some(reply.typ) case None => None
    ensures a.keeps <==> FirstMatch(s.msgs[m], ReqOf(s, m), x) && x.list.Overflow?
    ensures forall p {:trigger GivesTo(c, a, p)} :: GivesTo(c, a, p) <==> Resumes(c, s, m, x, p)
  {
    hide PhaseAfter, AnswerKind, Resumes;
  }

  lemma DecidedPlaces(c: Config, s: State, m: MsgId, x: Match, a: Reaction, u: State, t: State)
    requires Live(s, m) && Decides(c, s, m, x, a) && Tale(Arrived(s, m), m, Effective(c, a), u) && t.at == u.at
    requires t.sent == u.sent && u.at.uh == if a.keeps then s.at.uh + multiset{m} else s.at.uh
    requires forall p {:trigger Q(u.at.parked, p)} ::
      Q(u.at.parked, p) == if GivesTo(c, a, p) then [] else Q(s.at.parked, p)
    requires forall p {:trigger Q(u.at.tx, p)} ::
      Q(u.at.tx, p) == Q(s.at.tx, p) + (if GivesTo(c, a, p) then Q(s.at.parked, p) else [])
        + (if a.sends.Some? && Carries(p, s.msgs[m].target, a.sends.value.typ, ReqOf(s, m).command)
           then [s.next] else [])
    ensures PlacesAfter(c, s, m, x, t)
  {
    TaleRest(Arrived(s, m), m, Effective(c, a), u);
    DecidedKind(c, s, m, x, a);
    hide Tale, Carries, Decides, AnswerKind, FirstMatch, Resumes, GivesTo;
  }
}
