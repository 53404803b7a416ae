/** The NIC protocol as a step system: the whole simulated machine is one State, and every actor
    handler is a function from states to states. Touching a freed message or request, and every panic
    of the program, shows up in `fault`; a faulty machine has aborted and takes no further step. */
module Nic {
  import opened Wire
  import opened Queues
  import opened FlowControl

  datatype Port = Port(nid: Nid, vn: Vn)
  datatype Interface = Interface(nid: Nid, pid: Pid)

  datatype Fault =
    | NoFault | UseAfterFree | EndlessDestructor | ReleasePanic | NegativeCreditPanic
    | AckWithoutAnswer | RetryAboveMaximum

  /** A credit is told by the message it was charged for, and the request of that message. The first message of
      a request has the number of the request. */
  datatype ChargeId = ChargeId(req: ReqId, payer: MsgId)
  datatype Charge = Charge(node: Nid, channel: Channel)

  /** The places that hold messages: transmit queues, deques of messages waiting for credit, the network,
      E2E queues with the message the E2E actor sleeps on, and unexpected headers. */
  datatype Places = Places(
    tx: Queues<Port>,
    parked: Queues<Port>,
    net: multiset<MsgId>,
    e2e: Queues<Nid>,
    uh: multiset<MsgId>)

  /** `open`, `sent`, `resent`, `freed` and `ended` are history: credits charged and not yet given back,
      messages handed to the network, dispatched retransmissions of requests, deleted requests, and their
      last records. */
  datatype State = State(
    msgs: map<MsgId, Msg>,
    reqs: map<ReqId, Req>,
    next: nat,
    at: Places,
    flows: map<Nid, Flow>,
    cq: map<Interface, int>,
    open: map<ChargeId, Charge>,
    sent: set<MsgId>,
    resent: multiset<Interface>,
    freed: multiset<ReqId>,
    ended: map<ReqId, Req>,
    fault: Fault)

  const INIT := State(map[], map[], 0, Places(map[], map[], multiset{}, map[], multiset{}), map[], map[], map[], {},
                      multiset{}, multiset{}, map[], NoFault)

  // ---------------------------------------------------------------- accessors

  predicate Live(s: State, m: MsgId) {
    m in s.msgs && s.msgs[m].req in s.reqs
  }

  function ReqOf(s: State, m: MsgId): Req
    requires Live(s, m)
  {
    s.reqs[s.msgs[m].req]
  }

  function Fail(s: State, f: Fault): State {
    s.(fault := f)
  }

  function FlowAt(flows: map<Nid, Flow>, n: Nid): Flow {
    if n in flows then flows[n] else FRESH_FLOW
  }

  function FlowOf(s: State, n: Nid): Flow {
    FlowAt(s.flows, n)
  }

  function CqFree(s: State, ni: Interface): int {
    if ni in s.cq then s.cq[ni] else CQ_INITIAL_CAPACITY
  }

  function SetReq(s: State, r: ReqId, q: Req): State {
    s.(reqs := s.reqs[r := q])
  }

  predicate Issued(s: State, r: ReqId) {
    r in s.reqs || r in s.ended
  }

  /** The record of a request, or the last one it had. */
  function RecordOf(s: State, r: ReqId): Req
    requires Issued(s, r)
  {
    if r in s.reqs then s.reqs[r] else s.ended[r]
  }

  /** BxiMsg::get_vn. */
  function VnOf(msg: Msg): Vn {
    GetVn(msg.typ, msg.service)
  }

  // ---------------------------------------------------------------- BxiMsg and BxiRequest

  /** A new message: its own reference and one more message of its request; it starts in a transmit
      queue. `q` is the record of its request, and is written back. */
  function Spawn(s: State, p: Port, msg: Msg, q: Req): State {
    s.(msgs := s.msgs[s.next := msg.(refCount := 1)],
       reqs := s.reqs[msg.req := q.(msgRefs := q.msgRefs + 1)],
       at := s.at.(tx := Push(s.at.tx, p, s.next)),
       next := s.next + 1)
  }

  function Reference(msgs: map<MsgId, Msg>, m: MsgId): map<MsgId, Msg>
    requires m in msgs
  {
    msgs[m := msgs[m].(refCount := msgs[m].refCount + 1)]
  }

  function DropRequest(s: State, r: ReqId): State {
    if r !in s.reqs then Fail(s, UseAfterFree)
    else if s.reqs[r].msgRefs - 1 == 0 then
      s.(reqs := s.reqs - {r}, freed := s.freed + multiset{r}, ended := s.ended[r := s.reqs[r]])
    else SetReq(s, r, s.reqs[r].(msgRefs := s.reqs[r].msgRefs - 1))
  }

  /** BxiMsg::unref with the destructor: the answered message first, then the request. */
  function Unref(s: State, m: MsgId): State
    decreases m
  {
    if m !in s.msgs then Fail(s, UseAfterFree)
    else
      var msg := s.msgs[m];
      if msg.refCount - 1 != 0 then s.(msgs := s.msgs[m := msg.(refCount := msg.refCount - 1)])
      else
        var s1 := s.(msgs := s.msgs - {m});
        if msg.answers.None? then DropRequest(s1, msg.req)
        else if msg.answers.value < m then DropRequest(Unref(s1, msg.answers.value), msg.req)
        else Fail(s1, EndlessDestructor)
  }

  function MaybeIssueSend(q: Req): Req {
    if q.sendIssued then q
    else q.(sendIssued := true,
            initiatorLog := q.initiatorLog + (if q.command.ctSend then [SendCount] else [])
                                           + (if q.command.sendEvents then [SendEvent] else []))
  }

  function IssueAck(q: Req, fail: NiFail): Req {
    q.(initiatorLog := q.initiatorLog + (if q.command.ctAck then [AckCount] else [])
                                      + (if q.command.ackReq.FullAckReq?
                                         then [AckEvent(fail, ReportedLength(q), ReportedOffset(q))] else []))
  }

  predicate RaisesDirectEvent(x: Option<Match>) {
    x.Some? && x.value.Matched? && !x.value.silent && x.value.list.Priority?
  }

  /** maybe_issue_get and maybe_issue_fetch_atomic. */
  function MaybeIssueGet(q: Req): Req {
    if q.getIssued then q
    else q.(getIssued := true,
            targetLog := q.targetLog + (if RaisesDirectEvent(q.matched) then [DirectEvent] else []))
  }

  // ---------------------------------------------------------------- BxiNode

  function Resume(s: State, p: Port): (r: State)
    ensures r.flows == s.flows && r.open == s.open && r.fault == s.fault && r.msgs == s.msgs && r.reqs == s.reqs
  {
    s.(at := s.at.(tx := Splice(s.at.tx, s.at.parked, p), parked := Clear(s.at.parked, p)))
  }

  /** Charge `id` is settled, and leaves node `n` with counters `f`. */
  function Credited(s: State, n: Nid, f: Flow, id: ChargeId): (r: State)
    ensures r.at == s.at && r.fault == s.fault && r.msgs == s.msgs && r.reqs == s.reqs
  {
    s.(flows := s.flows[n := f], open := s.open - {id})
  }

  /** release_e2e_entry at node `n`; `id` names the charge the caller means to give back. */
  function ReleaseAt(c: Config, s: State, n: Nid, ch: Channel, id: ChargeId): (r: State)
    ensures r.msgs == s.msgs && r.reqs == s.reqs && r.next == s.next && r.cq == s.cq && r.sent == s.sent
    ensures r.resent == s.resent && r.freed == s.freed && r.ended == s.ended
    ensures r.at.net == s.at.net && r.at.e2e == s.at.e2e && r.at.uh == s.at.uh
    ensures r.fault == s.fault || r.fault.ReleasePanic?
  {
    if c.e2eOff then s
    else
      match ReleaseEntry(c, FlowOf(s, n), ch)
      case CounterPanic => Fail(s, ReleasePanic)
      case Released(f) =>
        var s1 := Credited(s, n, f, id);
        if c.maxToProcess > 0 || c.maxToTarget > 0 then Resume(s1, Port(n, ch.vn)) else s1
  }

  // ---------------------------------------------------------------- BxiMainActor

  function RequestMessage(t: ReqType): MsgType {
    match t
    case FetchAtomicReq => PtlFetchAtomic
    case AtomicReq => PtlAtomic
    case PutReq => PtlPut
    case GetReq => PtlGet
  }

  function NewRequest(k: Command, m: MsgId): Req {
    Req(k.(ackReq := if k.typ.PutReq? || k.typ.AtomicReq? then k.ackReq else NoAckReq),
        Created, 0, false, false, None, [], [], None, m)
  }

  function FirstMessage(k: Command, m: MsgId): Msg {
    Msg(k.src, k.dst, RequestMessage(k.typ), k.service, 0, m, 1, NiOk, None, if k.typ.GetReq? then 64 else k.length, m)
  }

  /** PtlPut, PtlGet, PtlAtomic, PtlFetchAtomic. A full command queue blocks the caller. */
  function Issue(s: State, k: Command): State {
    var ni := Interface(k.src, k.srcPid);
    if s.fault != NoFault || CqFree(s, ni) <= 0 then s
    else
      Spawn(s.(cq := s.cq[ni := CqFree(s, ni) - 1]), Port(k.src, RequestVn(k.service)),
            FirstMessage(k, s.next), NewRequest(k, s.next))
  }

  // ---------------------------------------------------------------- BxiNicInitiator

  /** check_flowctrl lets E2E ACKs and retransmissions through unseen. */
  predicate NeedsCredit(c: Config, msg: Msg) {
    !c.e2eOff && !msg.typ.E2eAck? && msg.retry == 0
  }

  /** The counter check_flowctrl charges for a message of request `q`. */
  function ChargedChannel(msg: Msg, q: Req): Channel {
    var vn := VnOf(msg);
    Channel(vn, msg.target,
            if IsRequestVn(vn) then q.command.srcPid else q.command.targetPid,
            if IsRequestVn(vn) then q.command.targetPid else q.command.srcPid)
  }

  function ChargeName(msg: Msg): ChargeId {
    ChargeId(msg.req, msg.origin)
  }

  function Popped(s: State, p: Port): (r: State)
    requires Q(s.at.tx, p) != []
    ensures r.at.e2e == s.at.e2e && r.msgs == s.msgs && r.reqs == s.reqs && r.sent == s.sent
    ensures r.ended == s.ended && r.next == s.next && r.fault == s.fault && r.flows == s.flows && r.open == s.open
    ensures r.at.net == s.at.net
  {
    s.(at := s.at.(tx := Pop(s.at.tx, p)))
  }

  function Park(s: State, p: Port, m: MsgId): (r: State)
    ensures r.at.e2e == s.at.e2e && r.sent == s.sent && r.msgs == s.msgs && r.reqs == s.reqs && r.flows == s.flows
    ensures r.ended == s.ended && r.next == s.next && r.fault == s.fault && r.open == s.open
  {
    if m in Q(s.at.parked, p) then s else s.(at := s.at.(parked := Push(s.at.parked, p, m)))
  }

  function ChargeFor(s: State, n: Nid, f: Flow, msg: Msg, q: Req): (r: State)
    ensures r.at == s.at && r.msgs == s.msgs && r.reqs == s.reqs && r.sent == s.sent
    ensures r.ended == s.ended && r.next == s.next && r.fault == s.fault
  {
    s.(flows := s.flows[n := f.(entries := f.entries - 1)],
       open := s.open[ChargeName(msg) := Charge(n, ChargedChannel(msg, q))])
  }

  /** Which messages the E2E actor watches, see reliable_comm_init. */
  predicate Watched(c: Config, msg: Msg) {
    !c.e2eOff && !msg.typ.E2eAck?
  }

  /** A request message, first try or not, frees a slot of its command queue. */
  function CqAfter(s: State, msg: Msg, q: Req): map<Interface, int> {
    var ni := Interface(q.command.src, q.command.srcPid);
    if IsRequest(msg.typ) then s.cq[ni := CqFree(s, ni) + 1] else s.cq
  }

  function ResentAfter(s: State, msg: Msg, q: Req): multiset<Interface> {
    if IsRequest(msg.typ) && msg.retry > 0
    then s.resent + multiset{Interface(q.command.src, q.command.srcPid)} else s.resent
  }

  /** The events raised while a message leaves: SEND of a buffered Put, and without E2E the target event
      of a response. */
  function OnDispatch(c: Config, msg: Msg, q: Req): Req {
    if IsRequest(msg.typ) && !msg.typ.PtlGet? && msg.size <= 64 then MaybeIssueSend(q)
    else if (msg.typ.GetResponse? || msg.typ.FetchAtomicResponse?) && c.e2eOff then MaybeIssueGet(q)
    else q
  }

  /** The message leaves for the network; E2E keeps its own reference to it. */
  function Dispatch(c: Config, s: State, n: Nid, m: MsgId): (r: State)
    requires Live(s, m)
    ensures r.reqs.Keys == s.reqs.Keys && r.ended == s.ended && r.next == s.next && r.fault == s.fault
  {
    var msg, q := s.msgs[m], ReqOf(s, m);
    s.(msgs := if Watched(c, msg) then Reference(s.msgs, m) else s.msgs,
       reqs := s.reqs[msg.req := OnDispatch(c, msg, q)],
       at := s.at.(net := s.at.net + multiset{m},
                   e2e := if Watched(c, msg) then Push(s.at.e2e, n, m) else s.at.e2e),
       cq := CqAfter(s, msg, q),
       resent := ResentAfter(s, msg, q),
       sent := s.sent + {m})
  }

  /** One turn of the initiator of port `p`. An empty queue, or an exhausted E2E semaphore, blocks it. */
  function Transmit(c: Config, s: State, p: Port): State {
    if s.fault != NoFault || Q(s.at.tx, p) == [] then s
    else
      var m := Q(s.at.tx, p)[0];
      if !Live(s, m) then Fail(s, UseAfterFree)
      else
        var msg, q := s.msgs[m], ReqOf(s, m);
        if !NeedsCredit(c, msg) then Dispatch(c, Popped(s, p), p.nid, m)
        else
          match CheckFlowctrl(c, FlowOf(s, p.nid), ChargedChannel(msg, q))
          case NegativeCredit => Fail(s, NegativeCreditPanic)
          case Refused(f) => Park(Popped(s, p).(flows := s.flows[p.nid := f]), p, m)
          case Granted(f) =>
            if f.entries <= 0 then s
            else Dispatch(c, ChargeFor(Popped(s, p), p.nid, f, msg, q), p.nid, m)
  }

  // ---------------------------------------------------------------- BxiNicTarget

  /** What one handler decides: whether the message stays as an unexpected header, the credit it gives
      back, the new record of the request, and the message it sends back. */
  datatype Reaction =
    | Reaction(keeps: bool, gives: Option<Release>, req: Req, sends: Option<Reply>)
    | Abort(fault: Fault)

  datatype Release = Release(node: Nid, channel: Channel, id: ChargeId)
  datatype Reply = Reply(typ: MsgType, retry: nat, fail: NiFail, size: nat)

  function Ignore(q: Req): Reaction {
    Reaction(false, None, q, None)
  }

  /** What all four request handlers record of a matched entry: the header an overflow entry makes of
      the message, the memory update with the offset advance, the counter increment. */
  function Recorded(q: Req, m: MsgId, x: Match): Req
    requires x.Matched?
  {
    q.(phase := Received,
       matched := Some(x),
       header := if x.list.Overflow? then Some(m) else q.header,
       targetLog := q.targetLog + (if x.list.Overflow? then [HeaderPush] else []) + [Effect]
                                + (if x.ctComm then [TargetCount] else []))
  }

  /** put_like_req_ev_processing: the direct event of a Put or Atomic. */
  function PutEvent(q: Req): Req {
    if RaisesDirectEvent(q.matched) then q.(targetLog := q.targetLog + [DirectEvent]) else q
  }

  /** The counter of a request message, as the handlers of its reply rebuild it. */
  function RequestChannel(q: Req, peer: Nid): Channel {
    Channel(RequestVn(q.command.service), peer, q.command.srcPid, q.command.targetPid)
  }

  /** The same counter as send_ack rebuilds it in quick mode, from the message it answers. */
  function QuickChannel(msg: Msg, q: Req): Channel {
    Channel(VnOf(msg), msg.target, q.command.srcPid, q.command.targetPid)
  }

  function SendAck(c: Config, keeps: bool, msg: Msg, q: Req, typ: MsgType, fail: NiFail): Reaction {
    if c.quickAcks then
      Reaction(keeps, Some(Release(q.command.src, QuickChannel(msg, q), ChargeId(msg.req, msg.req))),
               IssueAck(MaybeIssueSend(q.(phase := Finished)), fail), None)
    else Reaction(keeps, None, q, Some(Reply(typ, 0, fail, ACK_SIZE)))
  }

  /** The matched half of handle_put_request and handle_atomic_request. */
  function AcceptPut(c: Config, m: MsgId, msg: Msg, q: Req, x: Match): Reaction
    requires x.Matched?
  {
    var portalsAck := !x.ackDisable && !q.command.ackReq.NoAckReq?;
    var q1 := PutEvent(Recorded(q, m, x));
    if portalsAck || !c.e2eOff
    then SendAck(c, x.list.Overflow?, msg, q1, if portalsAck then PtlAck else E2eAck, NiOk)
    else Reaction(x.list.Overflow?, None, q1, None)
  }

  function HandlePut(c: Config, m: MsgId, msg: Msg, q: Req, x: Match): Reaction {
    if Rank(q.phase) > Rank(Created) then Ignore(q)
    else if x.Matched? then AcceptPut(c, m, msg, q, x)
    else if !q.command.ackReq.NoAckReq? then SendAck(c, false, msg, q, PtlAck, x.fail)
    else Ignore(q)
  }

  /** Unlike a Put, an Atomic that finds no entry is not answered at all. */
  function HandleAtomic(c: Config, m: MsgId, msg: Msg, q: Req, x: Match): Reaction {
    if Rank(q.phase) > Rank(Created) || x.NoMatch? then Ignore(q) else AcceptPut(c, m, msg, q, x)
  }

  /** handle_get_request and handle_fetch_atomic_request: a response leaves whether or not an entry matched. */
  function HandleGet(m: MsgId, q: Req, x: Match, response: MsgType): Reaction {
    if Rank(q.phase) > Rank(Created) then Ignore(q)
    else if x.Matched?
      then Reaction(x.list.Overflow?, None, Recorded(q, m, x), Some(Reply(response, 0, NiOk, x.mlength)))
    else Reaction(false, None, q, Some(Reply(response, 0, x.fail, 0)))
  }

  function IssueReply(q: Req, fail: NiFail): Req {
    q.(initiatorLog := q.initiatorLog + (if q.command.ctReply then [ReplyCount] else [])
                                      + [ReplyEvent(fail, ReportedLength(q), ReportedOffset(q))])
  }

  /** The E2E ACK of a reply inherits the retry count of the reply. */
  function Confirmation(c: Config, msg: Msg): Option<Reply> {
    if c.e2eOff then None else Some(Reply(E2eAck, msg.retry, NiOk, ACK_SIZE))
  }

  function RequestRelease(msg: Msg, q: Req): Option<Release> {
    Some(Release(msg.target, RequestChannel(q, msg.initiator), ChargeId(msg.req, msg.req)))
  }

  function HandleResponse(c: Config, msg: Msg, q: Req): Reaction {
    if Rank(q.phase) > Rank(Received) then Reaction(false, RequestRelease(msg, q), q, None)
    else Reaction(false, RequestRelease(msg, q), IssueReply(q.(phase := Answered), msg.fail), Confirmation(c, msg))
  }

  function HandlePtlAck(c: Config, msg: Msg, q: Req): Reaction {
    Reaction(false, RequestRelease(msg, q),
             if Rank(q.phase) <= Rank(Received) then IssueAck(MaybeIssueSend(q.(phase := Answered)), msg.fail) else q,
             Confirmation(c, msg))
  }

  /** The counter handle_bxi_ack gives back: the one charged for the message the ACK answers. */
  function AnsweredChannel(answered: Msg, q: Req): Channel {
    var vn := VnOf(answered);
    var answersRequest := IsRequestVn(vn);
    Channel(vn, answered.target,
            if answersRequest then q.command.srcPid else q.command.targetPid,
            if answersRequest then q.command.targetPid else q.command.srcPid)
  }

  /** The events an E2E ACK may still have to raise. */
  function Concluded(q: Req): Req {
    match q.command.typ
    case PutReq => if q.command.ackReq.NoAckReq? then MaybeIssueSend(q) else q
    case AtomicReq => if q.command.ackReq.NoAckReq? then MaybeIssueSend(q) else q
    case GetReq => MaybeIssueGet(q)
    case FetchAtomicReq => MaybeIssueGet(q)
  }

  function HandleBxiAck(msgs: map<MsgId, Msg>, msg: Msg, q: Req): Reaction {
    if Rank(q.phase) >= Rank(Finished) then Ignore(q)
    else if msg.answers.None? then Abort(AckWithoutAnswer)
    else if msg.answers.value !in msgs then Abort(UseAfterFree)
    else
      var answered := msgs[msg.answers.value];
      Reaction(false, Some(Release(msg.target, AnsweredChannel(answered, q), ChargeName(answered))),
               Concluded(q.(phase := Finished)), None)
  }

  function React(c: Config, msgs: map<MsgId, Msg>, m: MsgId, msg: Msg, q: Req, x: Match): Reaction {
    match msg.typ
    case PtlPut => HandlePut(c, m, msg, q, x)
    case PtlGet => HandleGet(m, q, x, GetResponse)
    case PtlAtomic => HandleAtomic(c, m, msg, q, x)
    case PtlFetchAtomic => HandleGet(m, q, x, FetchAtomicResponse)
    case GetResponse => HandleResponse(c, msg, q)
    case FetchAtomicResponse => HandleResponse(c, msg, q)
    case PtlAck => HandlePtlAck(c, msg, q)
    case E2eAck => HandleBxiAck(msgs, msg, q)
  }

  /** Reply `id` travels back along message `m`; only an ACK remembers the message it answers. */
  function ReplyTo(id: MsgId, m: MsgId, msg: Msg, reply: Reply): Msg {
    Msg(msg.target, msg.initiator, reply.typ, msg.service, reply.retry, msg.req, 1, reply.fail,
        if reply.typ.PtlAck? || reply.typ.E2eAck? then Some(m) else None, reply.size, id)
  }

  /** An ACK holds a reference on the message it answers. */
  function Linked(s: State, m: MsgId, typ: MsgType): (r: State)
    requires m in s.msgs
    ensures r.reqs == s.reqs && r.next == s.next && r.at == s.at && r.fault == s.fault && r.msgs.Keys == s.msgs.Keys
  {
    if typ.PtlAck? || typ.E2eAck? then s.(msgs := Reference(s.msgs, m)) else s
  }

  /** The reply becomes the message that moves the request forward. */
  function Answer(s: State, m: MsgId, q: Req, reply: Reply): (r: State)
    requires m in s.msgs
    ensures r.next == s.next + 1 && r.fault == s.fault && r.at.e2e == s.at.e2e && r.at.parked == s.at.parked
    ensures r.ended == s.ended
  {
    Spawn(Linked(s, m, reply.typ),
          Port(s.msgs[m].target, ResponseVn(s.msgs[m].service)), ReplyTo(s.next, m, s.msgs[m], reply),
          q.(token := s.next))
  }

  function PushHeader(s: State, m: MsgId): (r: State)
    requires m in s.msgs
    ensures r.reqs == s.reqs && r.next == s.next && r.fault == s.fault && r.flows == s.flows && r.at.e2e == s.at.e2e
    ensures r.msgs.Keys == s.msgs.Keys && r.ended == s.ended
  {
    s.(msgs := Reference(s.msgs, m), at := s.at.(uh := s.at.uh + multiset{m}))
  }

  function Apply(c: Config, s: State, m: MsgId, a: Reaction): State
    requires m in s.msgs
  {
    if a.Abort? then Fail(s, a.fault)
    else
      var s1 := if a.keeps then PushHeader(s, m) else s;
      var s2 := if a.gives.None? then s1
                else ReleaseAt(c, s1, a.gives.value.node, a.gives.value.channel, a.gives.value.id);
      if a.sends.Some? then Answer(s2, m, a.req, a.sends.value) else SetReq(s2, s.msgs[m].req, a.req)
  }

  /** One turn of a target: any message in flight may be the next to arrive. */
  function Deliver(c: Config, s: State, m: MsgId, x: Match): State {
    if s.fault != NoFault || m !in s.at.net then s
    else
      var s1 := s.(at := s.at.(net := s.at.net - multiset{m}));
      if !Live(s1, m) then Fail(s1, UseAfterFree)
      else Unref(Apply(c, s1, m, React(c, s1.msgs, m, s1.msgs[m], ReqOf(s1, m), x)), m)
  }

  // ---------------------------------------------------------------- BxiNicE2E

  predicate AckedInTime(msg: Msg, q: Req) {
    Rank(q.phase) >= Rank(if msg.typ.PtlAck? then Finished else Answered)
  }

  /** The retransmitted copy of a message: one more try, answering nothing. */
  function RetryOf(msg: Msg): Msg {
    msg.(retry := msg.retry + 1, refCount := 1, fail := NiOk, answers := None)
  }

  function Retransmit(s: State, n: Nid, m: MsgId): State
    requires Live(s, m)
  {
    var msg := s.msgs[m];
    var s1 := s.(msgs := s.msgs[m := msg.(retry := msg.retry + 1)]);
    Spawn(s1, Port(n, VnOf(msg)), RetryOf(msg), ReqOf(s, m))
  }

  /** The E2E actor of node `n` deals with the oldest message of its queue. */
  function Timeout(c: Config, s: State, n: Nid): State {
    if s.fault != NoFault || Q(s.at.e2e, n) == [] then s
    else
      var m := Q(s.at.e2e, n)[0];
      var s1 := s.(at := s.at.(e2e := Pop(s.at.e2e, n)));
      if !Live(s1, m) then Fail(s1, UseAfterFree)
      else if AckedInTime(s1.msgs[m], ReqOf(s1, m)) then Unref(s1, m)
      else if s1.msgs[m].retry == c.maxRetries then Unref(s1, m)
      else if s1.msgs[m].retry < c.maxRetries then Unref(Retransmit(s1, n, m), m)
      else Fail(s1, RetryAboveMaximum)
  }

  // ---------------------------------------------------------------- BxiPT::walk_through_UHs, one header

  function ConsumeHeader(s: State, m: MsgId): State {
    if s.fault != NoFault || m !in s.at.uh then s
    else
      var s1 := s.(at := s.at.(uh := s.at.uh - multiset{m}));
      if !Live(s1, m) then Fail(s1, UseAfterFree)
      else
        var r, q := s1.msgs[m].req, ReqOf(s1, m);
        Unref(SetReq(s1, r, q.(targetLog := q.targetLog + [OverflowEvent])), m)
  }

  // ---------------------------------------------------------------- runs

  datatype Step =
    | IssueStep(command: Command)
    | TransmitStep(port: Port)
    | DeliverStep(msg: MsgId, found: Match)
    | TimeoutStep(node: Nid)
    | HeaderStep(header: MsgId)

  function Next(c: Config, s: State, t: Step): State {
    match t
    case IssueStep(k) => Issue(s, k)
    case TransmitStep(p) => Transmit(c, s, p)
    case DeliverStep(m, x) => Deliver(c, s, m, x)
    case TimeoutStep(n) => Timeout(c, s, n)
    case HeaderStep(m) => ConsumeHeader(s, m)
  }

  function Run(c: Config, steps: seq<Step>): State {
    if steps == [] then INIT else Next(c, Run(c, steps[..|steps| - 1]), steps[|steps| - 1])
  }
}
