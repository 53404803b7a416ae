/** The NIC's objects with their fields: the queue, the node with its credits, the request, and the target's
    handlers. Every method is proved against the function of the step system it stands for. */
module NicObjects {
  import opened Wire
  import opened Queues
  import opened FlowControl
  import opened Nic
  import opened NicRefRuns
  import opened NicTypes
  import opened NicStories

  // ---------------------------------------------------------------- BxiQueue

  /** A FIFO queue; the semaphore counts what can be taken. */
  class BxiQueue {
    var toProcess: seq<MsgId>
    var waiting: nat

    ghost predicate Valid()
      reads this
    {
      waiting == |toProcess|
    }

    constructor ()
      ensures Valid() && toProcess == []
    {
      toProcess := [];
      waiting := 0;
    }

    method Put(msg: MsgId)
      requires Valid()
      modifies this
      ensures Valid() && toProcess == old(toProcess) + [msg]
    {
      toProcess := toProcess + [msg];
      waiting := waiting + 1;
    }

    /** An acquire of an empty semaphore blocks. */
    method Get() returns (msg: MsgId)
      requires Valid() && waiting > 0
      modifies this
      ensures Valid() && old(toProcess) == [msg] + toProcess
    {
      waiting := waiting - 1;
      msg := toProcess[0];
      toProcess := toProcess[1..];
    }
  }

  // ---------------------------------------------------------------- BxiNode

  class BxiNode {
    const nid: Nid
    const config: Config
    var flowctrlNodeCounts: map<(Vn, Nid), int>
    var flowctrlProcessCounts: map<Channel, int>
    var e2eEntries: int
    var flowctrlWaitingMessages: map<Vn, seq<MsgId>>
    var txQueues: map<Vn, seq<MsgId>>

    ghost function FlowView(): Flow
      reads this
    {
      Flow(flowctrlNodeCounts, flowctrlProcessCounts, e2eEntries)
    }

    /** The node holds what state `s` says about it. */
    ghost predicate Mirrors(s: State)
      reads this
    {
      && FlowView() == FlowOf(s, nid)
      && (forall vn ::
            && Q(txQueues, vn) == Q(s.at.tx, Port(nid, vn))
            && Q(flowctrlWaitingMessages, vn) == Q(s.at.parked, Port(nid, vn)))
    }

    constructor (nid: Nid, config: Config)
      ensures this.nid == nid && this.config == config && Mirrors(INIT)
    {
      this.nid := nid;
      this.config := config;
      flowctrlNodeCounts := map[];
      flowctrlProcessCounts := map[];
      e2eEntries := MAX_E2E_ENTRIES;
      flowctrlWaitingMessages := map[];
      txQueues := map[];
    }

    /** check_flowctrl: creates the counters it needs, and consumes the credits only when both layers allow. */
    method CheckFlowctrl(msg: Msg, q: Req) returns (ok: bool, panic: bool)
      modifies `flowctrlNodeCounts, `flowctrlProcessCounts
      ensures !NeedsCredit(config, msg) ==> ok && !panic && FlowView() == old(FlowView())
      ensures NeedsCredit(config, msg) ==>
        match FlowControl.CheckFlowctrl(config, old(FlowView()), ChargedChannel(msg, q))
        case NegativeCredit => panic
        case Refused(f) => !ok && !panic && FlowView() == f
        case Granted(f) => ok && !panic && FlowView() == f
    {
      if config.e2eOff || msg.typ.E2eAck? || msg.retry > 0 {
        return true, false;
      }
      var vn := VnOf(msg);
      var node := (vn, msg.target);
      if config.maxToTarget > 0 {
        if node !in flowctrlNodeCounts {
          flowctrlNodeCounts := flowctrlNodeCounts[node := config.maxToTarget];
        }
        if flowctrlNodeCounts[node] < 0 {
          return false, true;
        }
        if flowctrlNodeCounts[node] == 0 {
          assert flowctrlNodeCounts == SetNode(config, old(FlowView()), ChargedChannel(msg, q), 0);
          return false, false;
        }
      }
      var isRequestVn := IsRequestVn(vn);
      var process := Channel(vn, msg.target, if isRequestVn then q.command.srcPid else q.command.targetPid,
                             if isRequestVn then q.command.targetPid else q.command.srcPid);
      if config.maxToProcess > 0 {
        if process !in flowctrlProcessCounts {
          flowctrlProcessCounts := flowctrlProcessCounts[process := config.maxToProcess];
        }
        if flowctrlProcessCounts[process] < 0 {
          return false, true;
        }
        if flowctrlProcessCounts[process] == 0 {
          assert flowctrlNodeCounts == SetNode(config, old(FlowView()), process, 0);
          return false, false;
        }
      }
      if config.maxToTarget > 0 {
        flowctrlNodeCounts := flowctrlNodeCounts[node := flowctrlNodeCounts[node] - 1];
      }
      if config.maxToProcess > 0 {
        flowctrlProcessCounts := flowctrlProcessCounts[process := flowctrlProcessCounts[process] - 1];
      }
      return true, false;
    }

    /** The loop that puts waiting messages back, oldest first. */
    method ResumeWaitingTxActors(vn: Vn)
      modifies `flowctrlWaitingMessages, `txQueues
      ensures forall v ::
        Q(txQueues, v) == Q(old(txQueues), v) + (if v == vn then Q(old(flowctrlWaitingMessages), vn) else [])
      ensures forall v :: Q(flowctrlWaitingMessages, v) == if v == vn then [] else Q(old(flowctrlWaitingMessages), v)
    {
      while Q(flowctrlWaitingMessages, vn) != []
        invariant Q(txQueues, vn) + Q(flowctrlWaitingMessages, vn) ==
                  Q(old(txQueues), vn) + Q(old(flowctrlWaitingMessages), vn)
        invariant forall v :: v != vn ==> Q(txQueues, v) == Q(old(txQueues), v)
        invariant forall v :: v != vn ==> Q(flowctrlWaitingMessages, v) == Q(old(flowctrlWaitingMessages), v)
        decreases |Q(flowctrlWaitingMessages, vn)|
      {
        txQueues := Push(txQueues, vn, Q(flowctrlWaitingMessages, vn)[0]);
        flowctrlWaitingMessages := Pop(flowctrlWaitingMessages, vn);
      }
    }

    /** One turn of the initiator of virtual network `vn`, up to handing the message to the network: a message
        without credit waits in the deque, once. If the semaphore has no entry the turn blocks, with the message
        taken and its credit charged. */
    method InitiatorTurn(vn: Vn, m: MsgId, msg: Msg, q: Req, ghost s: State)
      returns (leaves: bool, blocks: bool, panic: bool)
      requires Mirrors(s) && s.fault.NoFault?
      requires Q(txQueues, vn) != [] && m == Q(txQueues, vn)[0] && Live(s, m) && msg == s.msgs[m] && q == ReqOf(s, m)
      modifies this
      ensures panic <==> Transmit(config, s, Port(nid, vn)).fault.NegativeCreditPanic?
      ensures var v := FlowControl.CheckFlowctrl(config, old(FlowView()), ChargedChannel(msg, q));
        blocks <==> NeedsCredit(config, msg) && v.Granted? && old(e2eEntries) <= 0
      ensures !panic && !blocks ==> Mirrors(Transmit(config, s, Port(nid, vn)))
      ensures !panic ==> Transmit(config, s, Port(nid, vn)).at.net[m] == s.at.net[m] + (if leaves then 1 else 0)
      ensures blocks ==>
        && Transmit(config, s, Port(nid, vn)) == s && txQueues == Pop(old(txQueues), vn)
        && flowctrlWaitingMessages == old(flowctrlWaitingMessages)
        && FlowView() == FlowControl.CheckFlowctrl(config, old(FlowView()), ChargedChannel(msg, q)).flow
    {
      hide FlowControl.CheckFlowctrl, ChargedChannel, Transmit, NeedsCredit, Pop, Push;
      TransmitShape(config, s, Port(nid, vn), FlowView());
      QueuesMove(txQueues, s.at.tx, nid, vn, m);
      QueuesMove(flowctrlWaitingMessages, s.at.parked, nid, vn, m);
      txQueues := Pop(txQueues, vn);
      blocks := false;
      leaves, panic := CheckFlowctrl(msg, q);
      if panic {
        leaves := false;
        return;
      }
      if !leaves {
        if m !in Q(flowctrlWaitingMessages, vn) {
          flowctrlWaitingMessages := Push(flowctrlWaitingMessages, vn, m);
        }
        return;
      }
      if NeedsCredit(config, msg) {
        if e2eEntries <= 0 {
          return false, true, false;
        }
        e2eEntries := e2eEntries - 1;
      }
    }

    /** The credits of release_e2e_entry: a missing counter panics, one above its maximum fails an assertion. */
    method GiveBack(ch: Channel) returns (panic: bool)
      modifies `flowctrlNodeCounts, `flowctrlProcessCounts, `e2eEntries
      ensures panic <==> ReleaseEntry(config, old(FlowView()), ch).CounterPanic?
      ensures !panic ==> ReleaseEntry(config, old(FlowView()), ch) == Released(FlowView())
    {
      e2eEntries := e2eEntries + 1;
      var node := (ch.vn, ch.peer);
      if config.maxToTarget > 0 {
        if node !in flowctrlNodeCounts {
          return true;
        }
        flowctrlNodeCounts := flowctrlNodeCounts[node := flowctrlNodeCounts[node] + 1];
        if flowctrlNodeCounts[node] > config.maxToTarget {
          return true;
        }
      }
      if config.maxToProcess > 0 {
        if ch !in flowctrlProcessCounts {
          return true;
        }
        flowctrlProcessCounts := flowctrlProcessCounts[ch := flowctrlProcessCounts[ch] + 1];
        if flowctrlProcessCounts[ch] > config.maxToProcess {
          return true;
        }
      }
      return false;
    }

    /** release_e2e_entry. */
    method ReleaseE2eEntry(ch: Channel, ghost s: State, ghost id: ChargeId) returns (panic: bool)
      requires Mirrors(s) && s.fault.NoFault?
      modifies this
      ensures panic <==> ReleaseAt(config, s, nid, ch, id).fault.ReleasePanic?
      ensures !panic ==> Mirrors(ReleaseAt(config, s, nid, ch, id))
    {
      hide ReleaseEntry, Releasable, ReleaseAt;
      ReleaseShape(config, s, nid, ch, id);
      if config.e2eOff {
        return false;
      }
      panic := GiveBack(ch);
      if !panic && (config.maxToProcess > 0 || config.maxToTarget > 0) {
        ResumeWaitingTxActors(ch.vn);
      }
    }
  }

  /** The queues of one node and those of the machine move alike. */
  lemma QueuesMove(own: Queues<Vn>, all: Queues<Port>, n: Nid, vn: Vn, m: MsgId)
    requires forall v :: Q(own, v) == Q(all, Port(n, v))
    ensures forall v :: Q(Push(own, vn, m), v) == Q(Push(all, Port(n, vn), m), Port(n, v))
    ensures Q(own, vn) != [] ==> forall v :: Q(Pop(own, vn), v) == Q(Pop(all, Port(n, vn)), Port(n, v))
  {
  }

  /** What a give-back does to the queues and counters of its node. */
  lemma ReleaseShape(c: Config, s: State, n: Nid, ch: Channel, id: ChargeId)
    requires s.fault.NoFault?
    ensures var u, back := ReleaseAt(c, s, n, ch, id), ReleaseEntry(c, FlowOf(s, n), ch);
      var resumes := !c.e2eOff && (c.maxToProcess > 0 || c.maxToTarget > 0);
      && (u.fault.ReleasePanic? <==> !c.e2eOff && back.CounterPanic?)
      && (!u.fault.ReleasePanic? ==>
            && FlowOf(u, n) == (if c.e2eOff then FlowOf(s, n) else back.flow)
            && forall vn ::
                 var p := Port(n, vn);
                 && Q(u.at.tx, p) == Q(s.at.tx, p) + (if resumes && vn == ch.vn then Q(s.at.parked, p) else [])
                 && Q(u.at.parked, p) == if resumes && vn == ch.vn then [] else Q(s.at.parked, p))
  {
    ResumedQueues(s.at.tx, s.at.parked, n, ch.vn);
    ReleasePlaces(c, s, n, ch, id);
    if !c.e2eOff { ReleaseFlows(c, s, n, ch, id); }
    hide ReleaseAt, Releasable, SetNode, SetProcess, Splice, Clear, Q;
  }

  lemma ResumedQueues(tx: Queues<Port>, parked: Queues<Port>, n: Nid, vn: Vn)
    ensures forall v :: Q(Splice(tx, parked, Port(n, vn)), Port(n, v)) ==
                        Q(tx, Port(n, v)) + if v == vn then Q(parked, Port(n, v)) else []
    ensures forall v :: Q(Clear(parked, Port(n, vn)), Port(n, v)) == if v == vn then [] else Q(parked, Port(n, v))
  {
  }

  /** What one turn does to the queues and counters of its node. */
  lemma TransmitShape(c: Config, s: State, p: Port, f: Flow)
    requires s.fault.NoFault? && Q(s.at.tx, p) != [] && Live(s, Q(s.at.tx, p)[0]) && f == FlowOf(s, p.nid)
    ensures var m, u := Q(s.at.tx, p)[0], Transmit(c, s, p);
      var v := FlowControl.CheckFlowctrl(c, f, ChargedChannel(s.msgs[m], ReqOf(s, m)));
      var asks := NeedsCredit(c, s.msgs[m]);
      && (u.fault.NegativeCreditPanic? <==> asks && v.NegativeCredit?)
      && (asks && v.Granted? && f.entries <= 0 ==> u == s)
      && (!asks || (v.Granted? && f.entries > 0) ==>
            && u.at.tx == Pop(s.at.tx, p) && u.at.parked == s.at.parked && u.at.net == s.at.net + multiset{m}
            && FlowOf(u, p.nid) == if asks then v.flow.(entries := f.entries - 1) else f)
      && (asks && v.Refused? ==>
            && u.at.tx == Pop(s.at.tx, p) && u.at.net == s.at.net && FlowOf(u, p.nid) == v.flow
            && u.at.parked == if m in Q(s.at.parked, p) then s.at.parked else Push(s.at.parked, p, m))
  {
    var m := Q(s.at.tx, p)[0];
    var msg, q, popped := s.msgs[m], ReqOf(s, m), Popped(s, p);
    CheckMovesCredits(c, f, ChargedChannel(msg, q));
    hide FlowControl.CheckFlowctrl, ChargedChannel, Pop, Push, Dispatch;
    DispatchPlaces(c, popped, p.nid, m);
    match FlowControl.CheckFlowctrl(c, f, ChargedChannel(msg, q))
    case Granted(g) => DispatchPlaces(c, ChargeFor(popped, p.nid, g, msg, q), p.nid, m);
    case _ =>
  }

  lemma DispatchPlaces(c: Config, s: State, n: Nid, m: MsgId)
    requires Live(s, m)
    ensures var u := Dispatch(c, s, n, m);
      && u.at.tx == s.at.tx && u.at.parked == s.at.parked && u.at.net == s.at.net + multiset{m}
      && u.flows == s.flows && u.fault == s.fault
  {
  }

  // ---------------------------------------------------------------- BxiRequest

  /** The entry that was found raises the event of the operation itself: it is in the priority list and not silent. */
  predicate Announces(x: Option<Match>) {
    match x case Some(Matched(Priority, _, silent, _, _, _)) => !silent case _ => false
  }

  class BxiRequest {
    const command: Command
    var processState: Phase
    var msgRefCount: int
    var sendEventIssued: bool
    var targetEventIssued: bool
    var matchedMe: Option<Match>
    var initiatorEvents: seq<InitiatorEvent>
    var targetEvents: seq<TargetEvent>
    ghost var header: Option<MsgId>
    ghost var token: MsgId

    ghost function View(): Req
      reads this
    {
      Req(command, processState, msgRefCount, sendEventIssued, targetEventIssued, matchedMe, initiatorEvents,
          targetEvents, header, token)
    }

    constructor (k: Command, ghost m: MsgId)
      ensures View() == NewRequest(k, m)
    {
      command := k.(ackReq := if k.typ.PutReq? || k.typ.AtomicReq? then k.ackReq else NoAckReq);
      processState := Created;
      msgRefCount := 0;
      sendEventIssued := false;
      targetEventIssued := false;
      matchedMe := None;
      initiatorEvents := [];
      targetEvents := [];
      header := None;
      token := m;
    }

    method MaybeIssueSend()
      modifies `sendEventIssued, `initiatorEvents
      ensures View() == Nic.MaybeIssueSend(old(View()))
      ensures sendEventIssued
      ensures initiatorEvents == old(initiatorEvents) + if old(sendEventIssued) then [] else SendsOf(command)
    {
      if sendEventIssued {
        return;
      }
      sendEventIssued := true;
      if command.ctSend {
        initiatorEvents := initiatorEvents + [SendCount];
      }
      if command.sendEvents {
        initiatorEvents := initiatorEvents + [SendEvent];
      }
    }

    method IssueAck(fail: NiFail)
      modifies `initiatorEvents
      ensures View() == Nic.IssueAck(old(View()), fail)
      ensures initiatorEvents == old(initiatorEvents) + AcksOf(command, fail, matchedMe)
    {
      var mlength := if matchedMe.Some? && matchedMe.value.Matched? then matchedMe.value.mlength else 0;
      var offset := if matchedMe.Some? && matchedMe.value.Matched? then matchedMe.value.offset else 0;
      if command.ctAck {
        initiatorEvents := initiatorEvents + [AckCount];
      }
      if command.ackReq.FullAckReq? {
        initiatorEvents := initiatorEvents + [AckEvent(fail, mlength, offset)];
      }
    }

    /** maybe_issue_get and maybe_issue_fetch_atomic. */
    method MaybeIssueGet()
      modifies `targetEventIssued, `targetEvents
      ensures View() == Nic.MaybeIssueGet(old(View()))
      ensures targetEventIssued
      ensures targetEvents == old(targetEvents) + if !old(targetEventIssued) && Announces(matchedMe) then [DirectEvent]
                                                  else []
    {
      if targetEventIssued {
        return;
      }
      targetEventIssued := true;
      if matchedMe.Some? && matchedMe.value.Matched? && !matchedMe.value.silent && matchedMe.value.list.Priority? {
        targetEvents := targetEvents + [DirectEvent];
      }
    }

    /** put_like_req_ev_processing, without the unlinking. */
    method IssuePutEvent()
      requires matchedMe.Some? && matchedMe.value.Matched?
      modifies `targetEvents
      ensures View() == PutEvent(old(View()))
    {
      if !matchedMe.value.silent && matchedMe.value.list.Priority? {
        targetEvents := targetEvents + [DirectEvent];
      }
    }

    /** What a matched entry leaves in the request: header, memory update, counter, new state. */
    method Record(m: MsgId, x: Match)
      requires x.Matched?
      modifies this
      ensures View() == Recorded(old(View()), m, x)
    {
      if x.list.Overflow? {
        header := Some(m);
        targetEvents := targetEvents + [HeaderPush];
      }
      processState := Received;
      matchedMe := Some(x);
      targetEvents := targetEvents + [Effect];
      if x.ctComm {
        targetEvents := targetEvents + [TargetCount];
      }
    }
  }

  // ---------------------------------------------------------------- BxiNicTarget

  /** The handlers of the target. What matching finds is `x`; `keeps`, `gives` and `sends` are the reference
      kept by the header list, the credit given back, and the message put in the transmit queue. */
  class BxiNicTarget {
    const config: Config

    constructor (config: Config)
      ensures this.config == config
    {
      this.config := config;
    }

    method SendAck(req: BxiRequest, msg: Msg, ackType: MsgType, fail: NiFail)
      returns (gives: Option<Release>, sends: Option<Reply>)
      modifies req`processState, req`sendEventIssued, req`initiatorEvents
      ensures forall keeps ::
        Nic.SendAck(config, keeps, msg, old(req.View()), ackType, fail) == Reaction(keeps, gives, req.View(), sends)
    {
      gives, sends := None, None;
      if config.quickAcks {
        req.processState := Finished;
        gives := Some(Release(req.command.src,
                              Channel(VnOf(msg), msg.target, req.command.srcPid, req.command.targetPid),
                              ChargeId(msg.req, msg.req)));
        req.MaybeIssueSend();
        req.IssueAck(fail);
      } else {
        sends := Some(Reply(ackType, 0, fail, ACK_SIZE));
      }
    }

    method HandlePutRequest(req: BxiRequest, m: MsgId, msg: Msg, x: Match)
      returns (keeps: bool, gives: Option<Release>, sends: Option<Reply>)
      modifies req
      ensures Reaction(keeps, gives, req.View(), sends) == HandlePut(config, m, msg, old(req.View()), x)
    {
      keeps, gives, sends := false, None, None;
      if Rank(req.processState) > Rank(Created) {
        return;
      }
      var needAck, ackType, fail := false, PtlAck, NiOk;
      if x.Matched? {
        keeps := x.list.Overflow?;
        req.Record(m, x);
        var needPortalsAck := !x.ackDisable && !req.command.ackReq.NoAckReq?;
        needAck := needPortalsAck || !config.e2eOff;
        ackType := if needPortalsAck then PtlAck else E2eAck;
        req.IssuePutEvent();
      } else if !req.command.ackReq.NoAckReq? {
        needAck, fail := true, x.fail;
      }
      if needAck {
        gives, sends := SendAck(req, msg, ackType, fail);
      }
    }

    /** The event follows the ACK here, which makes no difference to anyone's log. */
    method HandleAtomicRequest(req: BxiRequest, m: MsgId, msg: Msg, x: Match)
      returns (keeps: bool, gives: Option<Release>, sends: Option<Reply>)
      modifies req
      ensures Reaction(keeps, gives, req.View(), sends) == HandleAtomic(config, m, msg, old(req.View()), x)
    {
      keeps, gives, sends := false, None, None;
      if Rank(req.processState) > Rank(Created) {
        return;
      }
      if x.Matched? {
        keeps := x.list.Overflow?;
        req.Record(m, x);
        var needPortalsAck := !x.ackDisable && !req.command.ackReq.NoAckReq?;
        ghost var recorded := req.View();
        if needPortalsAck || !config.e2eOff {
          gives, sends := SendAck(req, msg, if needPortalsAck then PtlAck else E2eAck, NiOk);
          assert Nic.SendAck(config, keeps, msg, recorded, if needPortalsAck then PtlAck else E2eAck, NiOk)
              == Reaction(keeps, gives, req.View(), sends);
        }
        req.IssuePutEvent();
      }
    }

    /** handle_get_request and handle_fetch_atomic_request. */
    method HandleGetRequest(req: BxiRequest, m: MsgId, x: Match, response: MsgType)
      returns (keeps: bool, sends: Option<Reply>)
      modifies req
      ensures Reaction(keeps, None, req.View(), sends) == HandleGet(m, old(req.View()), x, response)
    {
      keeps, sends := false, None;
      if Rank(req.processState) > Rank(Created) {
        return;
      }
      if x.Matched? {
        keeps := x.list.Overflow?;
        req.Record(m, x);
        sends := Some(Reply(response, 0, NiOk, x.mlength));
      } else {
        sends := Some(Reply(response, 0, x.fail, 0));
      }
    }

    method HandleResponse(req: BxiRequest, msg: Msg) returns (gives: Option<Release>, sends: Option<Reply>)
      modifies req
      ensures Reaction(false, gives, req.View(), sends) == Nic.HandleResponse(config, msg, old(req.View()))
      ensures req.initiatorEvents == old(req.initiatorEvents) +
        if Rank(old(req.processState)) <= Rank(Received) then RepliesOf(req.command, msg.fail, req.matchedMe) else []
      ensures Rank(old(req.processState)) <= Rank(Received) ==> req.processState.Answered?
    {
      gives, sends := RequestRelease(req, msg), None;
      if Rank(req.processState) > Rank(Received) {
        return;
      }
      req.processState := Answered;
      if !config.e2eOff {
        sends := Some(Reply(E2eAck, msg.retry, NiOk, ACK_SIZE));
      }
      if req.command.ctReply {
        req.initiatorEvents := req.initiatorEvents + [ReplyCount];
      }
      var mlength := if req.matchedMe.Some? && req.matchedMe.value.Matched? then req.matchedMe.value.mlength else 0;
      var offset := if req.matchedMe.Some? && req.matchedMe.value.Matched? then req.matchedMe.value.offset else 0;
      req.initiatorEvents := req.initiatorEvents + [ReplyEvent(msg.fail, mlength, offset)];
    }

    /** The counter of the request, rebuilt from its reply. */
    function RequestRelease(req: BxiRequest, msg: Msg): Option<Release> {
      Some(Release(msg.target, Channel(if req.command.service then ServiceRequest else ComputeRequest, msg.initiator,
                                       req.command.srcPid, req.command.targetPid), ChargeId(msg.req, msg.req)))
    }

    method HandlePtlAck(req: BxiRequest, msg: Msg) returns (gives: Option<Release>, sends: Option<Reply>)
      modifies req
      ensures Reaction(false, gives, req.View(), sends) == Nic.HandlePtlAck(config, msg, old(req.View()))
      ensures Rank(old(req.processState)) <= Rank(Received) ==>
        && req.processState.Answered?
        && req.initiatorEvents == old(req.initiatorEvents)
             + (if old(req.sendEventIssued) then [] else SendsOf(req.command))
             + AcksOf(req.command, msg.fail, req.matchedMe)
    {
      gives, sends := RequestRelease(req, msg), None;
      if !config.e2eOff {
        sends := Some(Reply(E2eAck, msg.retry, NiOk, ACK_SIZE));
      }
      if Rank(req.processState) <= Rank(Received) {
        req.processState := Answered;
        req.MaybeIssueSend();
        req.IssueAck(msg.fail);
      }
    }

    /** `answered` is the message the E2E ACK answers, if it answers one. */
    method HandleBxiAck(req: BxiRequest, msg: Msg, answered: Option<Msg>, ghost msgs: map<MsgId, Msg>)
      returns (panic: bool, gives: Option<Release>)
      requires msg.answers.Some? ==> msg.answers.value in msgs
      requires answered == if msg.answers.Some? then Some(msgs[msg.answers.value]) else None
      modifies req
      ensures if panic then Nic.HandleBxiAck(msgs, msg, old(req.View())) == Abort(AckWithoutAnswer)
              else Reaction(false, gives, req.View(), None) == Nic.HandleBxiAck(msgs, msg, old(req.View()))
      ensures req.processState.Finished?
      ensures !panic && !old(req.processState).Finished? && !PutLike(req.command.typ) ==>
        req.targetEvents == old(req.targetEvents)
          + if !old(req.targetEventIssued) && Announces(req.matchedMe) then [DirectEvent] else []
      ensures !panic && !old(req.processState).Finished? && PutLike(req.command.typ) ==>
        req.initiatorEvents == old(req.initiatorEvents)
          + if !old(req.sendEventIssued) && req.command.ackReq.NoAckReq? then SendsOf(req.command) else []
    {
      panic, gives := false, None;
      if Rank(req.processState) >= Rank(Finished) {
        return;
      }
      req.processState := Finished;
      if answered.None? {
        return true, None;
      }
      var vn := VnOf(answered.value);
      var answersRequest := IsRequestVn(vn);
      gives := Some(Release(msg.target,
        Channel(vn, answered.value.target, if answersRequest then req.command.srcPid else req.command.targetPid,
                if answersRequest then req.command.targetPid else req.command.srcPid), ChargeName(answered.value)));
      if req.command.typ.PutReq? || req.command.typ.AtomicReq? {
        if req.command.ackReq.NoAckReq? {
          req.MaybeIssueSend();
        }
      } else {
        req.MaybeIssueGet();
      }
    }
  }
}
