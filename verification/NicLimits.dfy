/** Where credit conservation ends. Both conditions of a clean run are needed: for each there is a run that meets
    the other one and aborts. And a clean run can still lose a credit for good. */
module NicLimits {
  import opened Wire
  import opened Queues
  import opened FlowControl
  import opened Nic
  import opened NicRefRuns
  import opened NicLedger
  import opened NicFrames
  import opened NicCharges
  import opened NicCredits
  import opened NicCreditRuns
  import opened NicExactRuns

  /** One or two credits towards each node; the last configuration never retransmits. */
  const ONE_CREDIT := Config(false, false, 1, 1, 0)
  const TWO_CREDITS := Config(false, false, 1, 2, 0)
  const NO_RETRY := Config(false, false, 0, 1, 0)

  /** An 8-byte Get, a Put without ACK, and one with ACK that is too long to be buffered, from node 0 to node 1; and
      the entry that takes it, also one that does not acknowledge, or none. */
  const GET := Command(GetReq, 0, 0, 1, 0, false, NoAckReq, false, false, false, false, 8)
  const PUT := Command(PutReq, 0, 0, 1, 0, false, NoAckReq, false, false, false, false, 8)
  const ACKED_PUT := Command(PutReq, 0, 0, 1, 0, false, FullAckReq, false, false, false, false, 128)
  const FOUND := Matched(Priority, false, false, false, 8, 0)
  const UNACKED := Matched(Priority, true, true, false, 128, 0)
  const MISSED := NoMatch(NiPtDisabled)

  const REQUEST_PORT := Port(0, ComputeRequest)
  const REPLY_PORT := Port(1, ComputeResponse)

  /** The two transmit queues in use, the network, and the E2E queues of both nodes. */
  datatype Traffic = Traffic(
    requests: seq<MsgId>, replies: seq<MsgId>, net: multiset<MsgId>, watched: seq<MsgId>, watchedReplies: seq<MsgId>)

  /** What these short runs look at: the one request, its messages, where they are, and both nodes' counters. */
  ghost predicate Shows(s: State, next: nat, msgs: map<MsgId, Msg>, q: Req, at: Traffic, f0: Flow, f1: Flow) {
    && s.fault.NoFault? && s.next == next && s.msgs == msgs && s.reqs == map[0 := q]
    && Q(s.at.tx, REQUEST_PORT) == at.requests && Q(s.at.tx, REPLY_PORT) == at.replies && s.at.net == at.net
    && Q(s.at.e2e, 0) == at.watched && Q(s.at.e2e, 1) == at.watchedReplies
    && FlowOf(s, 0) == f0 && FlowOf(s, 1) == f1
  }

  /** Only the counters between the two nodes are used, and not in quick mode. */
  predicate Plain(c: Config) {
    !c.e2eOff && !c.quickAcks && c.maxToTarget > 0 && c.maxToProcess == 0
  }

  /** The counters of node 0 with its request charged, and of node 1 with `k` replies charged. */
  function Used0(c: Config): Flow {
    Flow(map[(ComputeRequest, 1) := c.maxToTarget - 1], map[], MAX_E2E_ENTRIES - 1)
  }

  function Used1(c: Config, k: nat): Flow {
    if k == 0 then FRESH_FLOW else Flow(map[(ComputeResponse, 0) := c.maxToTarget - k], map[], MAX_E2E_ENTRIES - k)
  }

  function PutMsg(refs: nat): Msg {
    Msg(0, 1, PtlPut, false, 0, 0, refs, NiOk, None, 8, 0)
  }

  /** The request message of the Get or of the acknowledged Put, and of that one's answers. */
  function RequestMsg(k: Command, retry: nat, refs: nat): Msg {
    if k.typ.GetReq? then Msg(0, 1, PtlGet, false, retry, 0, refs, NiOk, None, 64, 0)
    else Msg(0, 1, PtlPut, false, retry, 0, refs, NiOk, None, 128, 0)
  }

  function GetMsg(retry: nat, refs: nat): Msg {
    RequestMsg(GET, retry, refs)
  }

  function PutAnswer(typ: MsgType, fail: NiFail, answers: MsgId, m: MsgId, refs: nat): Msg {
    Msg(1, 0, typ, false, 0, 0, refs, fail, Some(answers), ACK_SIZE, m)
  }

  /** The response first sent as message `origin`. */
  function ReplyMsg(x: Match, origin: MsgId, retry: nat, refs: nat): Msg {
    if x.Matched? then Msg(1, 0, GetResponse, false, retry, 0, refs, NiOk, None, 8, origin)
    else Msg(1, 0, GetResponse, false, retry, 0, refs, x.fail, None, 0, origin)
  }

  function PutRecord(left: bool): Req {
    Req(PUT, Created, 1, left, false, None, [], [], None, 0)
  }

  function WaitingRecord(k: Command, refs: nat, token: MsgId): Req {
    Req(k, Created, refs, false, false, None, [], [], None, token)
  }

  /** A Get that found an entry is RECEIVED; one that found none stays CREATED. */
  function GetRecord(x: Match, refs: nat, token: MsgId): Req {
    if x.Matched? then Req(GET, Received, refs, false, false, Some(x), [], [Effect], None, token)
    else WaitingRecord(GET, refs, token)
  }

  // ---------------------------------------------------------------- single steps

  /** The head of a transmit queue leaves with the credit it is granted. */
  lemma Leaves(c: Config, s: State, p: Port, f: Flow)
    requires s.fault.NoFault? && Q(s.at.tx, p) != [] && Live(s, Q(s.at.tx, p)[0]) && f.entries > 0
    requires var m := Q(s.at.tx, p)[0];
      && NeedsCredit(c, s.msgs[m])
      && CheckFlowctrl(c, FlowOf(s, p.nid), ChargedChannel(s.msgs[m], ReqOf(s, m))) == Granted(f)
    ensures var m := Q(s.at.tx, p)[0];
      Transmit(c, s, p) == Dispatch(c, ChargeFor(Popped(s, p), p.nid, f, s.msgs[m], ReqOf(s, m)), p.nid, m)
  {
    hide CheckFlowctrl, Dispatch, ChargedChannel;
  }

  /** A retransmission needs none. */
  lemma LeavesFree(c: Config, s: State, p: Port)
    requires s.fault.NoFault? && Q(s.at.tx, p) != [] && Live(s, Q(s.at.tx, p)[0])
    requires !NeedsCredit(c, s.msgs[Q(s.at.tx, p)[0]])
    ensures Transmit(c, s, p) == Dispatch(c, Popped(s, p), p.nid, Q(s.at.tx, p)[0])
  {
    hide CheckFlowctrl, Dispatch, ChargedChannel;
  }

  /** A check takes one of the credits left on a counter between two nodes. */
  lemma TakesCredit(c: Config, f: Flow, ch: Channel)
    requires Plain(c) && f.processCounts == map[] && NodeFree(c, f, ch.vn, ch.peer) > 0
    ensures CheckFlowctrl(c, f, ch) ==
            Granted(f.(nodeCounts := f.nodeCounts[(ch.vn, ch.peer) := NodeFree(c, f, ch.vn, ch.peer) - 1]))
  {
  }

  /** Giving back one of two references. */
  lemma OneReferenceLess(s: State, m: MsgId)
    requires m in s.msgs && s.msgs[m].refCount >= 2
    ensures Unref(s, m) == s.(msgs := s.msgs[m := s.msgs[m].(refCount := s.msgs[m].refCount - 1)])
  {
  }

  lemma RequestIssued(c: Config, k: Command)
    requires k == GET || k == ACKED_PUT
    ensures Shows(Next(c, INIT, IssueStep(k)), 1, map[0 := RequestMsg(k, 0, 1)], WaitingRecord(k, 1, 0),
                  Traffic([0], [], multiset{}, [], []), FRESH_FLOW, FRESH_FLOW)
  {
  }

  lemma RequestLeft(c: Config, s: State, k: Command)
    requires Plain(c) && (k == GET || k == ACKED_PUT)
    requires Shows(s, 1, map[0 := RequestMsg(k, 0, 1)], WaitingRecord(k, 1, 0),
                   Traffic([0], [], multiset{}, [], []), FRESH_FLOW, FRESH_FLOW)
    ensures Shows(Next(c, s, TransmitStep(REQUEST_PORT)), 1, map[0 := RequestMsg(k, 0, 2)], WaitingRecord(k, 1, 0),
                  Traffic([], [], multiset{0}, [0], []), Used0(c), FRESH_FLOW)
  {
    var msg, q := RequestMsg(k, 0, 1), WaitingRecord(k, 1, 0);
    TakesCredit(c, FRESH_FLOW, ChargedChannel(msg, q));
    hide CheckFlowctrl, Dispatch;
    var f := Flow(map[(ComputeRequest, 1) := c.maxToTarget - 1], map[], MAX_E2E_ENTRIES);
    var u := ChargeFor(Popped(s, REQUEST_PORT), 0, f, msg, q);
    assert Shows(u, 1, map[0 := msg], q, Traffic([], [], multiset{}, [], []), Used0(c), FRESH_FLOW);
    Leaves(c, s, REQUEST_PORT, f);
    hide Transmit;
    RequestDispatched(c, u, k);
  }

  lemma RequestDispatched(c: Config, u: State, k: Command)
    requires Plain(c) && (k == GET || k == ACKED_PUT)
    requires Shows(u, 1, map[0 := RequestMsg(k, 0, 1)], WaitingRecord(k, 1, 0),
                   Traffic([], [], multiset{}, [], []), Used0(c), FRESH_FLOW)
    ensures Shows(Dispatch(c, u, 0, 0), 1, map[0 := RequestMsg(k, 0, 2)], WaitingRecord(k, 1, 0),
                  Traffic([], [], multiset{0}, [0], []), Used0(c), FRESH_FLOW)
  {
    var t := Dispatch(c, u, 0, 0);
    assert Reference(u.msgs, 0) == map[0 := RequestMsg(k, 0, 2)];
    assert t.reqs == map[0 := WaitingRecord(k, 1, 0)];
    assert t.at.net == multiset{0};
  }

  /** Replies and E2E ACKs travel from node 1 to node 0. */
  predicate Returns(msg: Msg) {
    msg.initiator == 1 && msg.target == 0 && !IsRequest(msg.typ) && !msg.service && msg.req == 0
  }

  /** A reply leaves, for the first time: `k` others have left before. */
  lemma ReplyLeft(c: Config, s: State, m: MsgId, msg: Msg, next: nat, msgs: map<MsgId, Msg>, q: Req, at: Traffic,
                  k: nat)
    requires Plain(c) && k < c.maxToTarget && k < 2 && Shows(s, next, msgs, q, at, Used0(c), Used1(c, k))
    requires at.replies != [] && at.replies[0] == m && m in msgs && msgs[m] == msg && q.command in {GET, ACKED_PUT}
    requires Returns(msg) && IsReply(msg.typ) && msg.retry == 0
    ensures Shows(Next(c, s, TransmitStep(REPLY_PORT)), next, msgs[m := msg.(refCount := msg.refCount + 1)], q,
                  at.(replies := at.replies[1..], net := at.net + multiset{m},
                      watchedReplies := at.watchedReplies + [m]),
                  Used0(c), Used1(c, k + 1))
  {
    TakesCredit(c, Used1(c, k), ChargedChannel(msg, q));
    hide CheckFlowctrl, Dispatch;
    var f := Flow(map[(ComputeResponse, 0) := c.maxToTarget - k - 1], map[], MAX_E2E_ENTRIES - k);
    var u, at' := ChargeFor(Popped(s, REPLY_PORT), 1, f, msg, q), at.(replies := at.replies[1..]);
    ReplyCharged(c, s, f, msg, q, next, msgs, at, k);
    Leaves(c, s, REPLY_PORT, f);
    hide Transmit, Shows;
    ReplyDispatched(c, u, m, msg, next, msgs, q, at', k + 1);
  }

  lemma ReplyCharged(c: Config, s: State, f: Flow, msg: Msg, q: Req, next: nat, msgs: map<MsgId, Msg>, at: Traffic,
                     k: nat)
    requires Plain(c) && k < c.maxToTarget && k < 2 && Shows(s, next, msgs, q, at, Used0(c), Used1(c, k))
    requires at.replies != []
    requires f == Flow(map[(ComputeResponse, 0) := c.maxToTarget - k - 1], map[], MAX_E2E_ENTRIES - k)
    ensures Shows(ChargeFor(Popped(s, REPLY_PORT), 1, f, msg, q), next, msgs, q, at.(replies := at.replies[1..]),
                  Used0(c), Used1(c, k + 1))
  {
    hide ChargedChannel;
  }

  lemma ReplyDispatched(c: Config, u: State, m: MsgId, msg: Msg, next: nat, msgs: map<MsgId, Msg>, q: Req, at: Traffic,
                        k: nat)
    requires Plain(c) && Shows(u, next, msgs, q, at, Used0(c), Used1(c, k))
    requires m in msgs && msgs[m] == msg && Returns(msg) && IsReply(msg.typ)
    ensures Shows(Dispatch(c, u, 1, m), next, msgs[m := msg.(refCount := msg.refCount + 1)], q,
                  at.(net := at.net + multiset{m}, watchedReplies := at.watchedReplies + [m]), Used0(c), Used1(c, k))
  {
    var t := Dispatch(c, u, 1, m);
    assert OnDispatch(c, msgs[m], q) == q;
    assert t.reqs == map[0 := q];
  }

  // ---------------------------------------------------------------- two replies of one request in flight

  predicate RepliesToGet(msg: Msg) {
    msg.typ.GetResponse? && msg.initiator == 1 && msg.target == 0 && msg.req == 0 && !msg.service
  }

  ghost predicate TwoReplies(c: Config, s: State, a: MsgId, b: MsgId) {
    && s.fault.NoFault? && a != b && a in s.at.net && b in s.at.net && a < s.next && b < s.next
    && a in s.msgs && b in s.msgs && RepliesToGet(s.msgs[a]) && RepliesToGet(s.msgs[b])
    && s.msgs[a].refCount >= 1 && s.msgs[b].refCount >= 2
    && 0 in s.reqs && s.reqs[0].command == GET && Rank(s.reqs[0].phase) <= Rank(Received)
    && FlowOf(s, 0) == Used0(c)
  }

  /** One reply was handled, and the counter is full again. */
  ghost predicate OneReply(c: Config, s: State, b: MsgId) {
    && s.fault.NoFault? && b in s.at.net && b in s.msgs && RepliesToGet(s.msgs[b]) && s.msgs[b].refCount >= 2
    && 0 in s.reqs && s.reqs[0].command == GET && s.reqs[0].phase.Answered?
    && NodeFree(c, FlowOf(s, 0), ComputeRequest, 1) == c.maxToTarget
  }

  /** The first reply gives the credit back, whatever it reports. */
  lemma FirstReplyHandled(c: Config, s: State, a: MsgId, b: MsgId, x: Match)
    requires Plain(c) && TwoReplies(c, s, a, b)
    ensures OneReply(c, Next(c, s, DeliverStep(a, x)), b) && !SettlesAgain(s, a)
  {
    var ch := Channel(ComputeRequest, 1, 0, 0);
    var s1 := s.(at := s.at.(net := s.at.net - multiset{a}));
    FirstReaction(c, s1.msgs, a, s.reqs[0], x);
    hide React;
    var r := ReactionTo(c, s, a, x);
    var s2 := ReleaseAt(c, s1, 0, ch, ChargeId(0, 0));
    CreditBack(c, s1, ch, ChargeId(0, 0));
    hide ReleaseAt, Answer;
    var u := Answer(s2, a, r.req, r.sends.value);
    ReplyAcked(s2, a, b, r.req, r.sends.value);
    assert Apply(c, s1, a, r) == u;
    hide Apply;
    OneReferenceLess(u, a);
    hide Unref;
    assert Next(c, s, DeliverStep(a, x)) == Unref(u, a);
  }

  lemma FirstReaction(c: Config, msgs: map<MsgId, Msg>, m: MsgId, q: Req, x: Match)
    requires Plain(c) && m in msgs && RepliesToGet(msgs[m]) && q.command == GET && Rank(q.phase) <= Rank(Received)
    ensures var a := React(c, msgs, m, msgs[m], q, x);
      && a.Reaction? && !a.keeps
      && a.gives == Some(Release(0, Channel(ComputeRequest, 1, 0, 0), ChargeId(0, 0)))
      && a.sends == Some(Reply(E2eAck, msgs[m].retry, NiOk, ACK_SIZE)) && a.req.phase.Answered? && a.req.command == GET
  {
  }

  lemma ReplyAcked(s: State, a: MsgId, b: MsgId, q: Req, reply: Reply)
    requires a != b && a in s.msgs && b in s.msgs && s.msgs[a].req == 0 && s.msgs[a].refCount >= 1
    requires a < s.next && b < s.next && reply.typ.E2eAck?
    ensures var u := Answer(s, a, q, reply);
      && u.fault == s.fault && u.at.net == s.at.net && u.flows == s.flows
      && a in u.msgs && u.msgs[a].refCount >= 2 && b in u.msgs && u.msgs[b] == s.msgs[b]
      && 0 in u.reqs && u.reqs[0].phase == q.phase && u.reqs[0].command == q.command
  {
    hide Push;
  }

  lemma CreditBack(c: Config, s: State, ch: Channel, id: ChargeId)
    requires Plain(c) && s.fault.NoFault? && FlowOf(s, 0) == Used0(c) && ch == Channel(ComputeRequest, 1, 0, 0)
    ensures var t := ReleaseAt(c, s, 0, ch, id);
      && t.fault.NoFault? && t.msgs == s.msgs && t.reqs == s.reqs && t.next == s.next && t.at.net == s.at.net
      && NodeFree(c, FlowOf(t, 0), ComputeRequest, 1) == c.maxToTarget
  {
    hide Splice, Clear;
  }

  /** The second reply finds the counter full already. */
  lemma SecondReplyPanics(c: Config, s: State, b: MsgId, x: Match)
    requires Plain(c) && OneReply(c, s, b)
    ensures Next(c, s, DeliverStep(b, x)).fault.ReleasePanic? && SettlesAgain(s, b)
  {
    var q := s.reqs[0];
    var s1 := s.(at := s.at.(net := s.at.net - multiset{b}));
    var ch := Channel(ComputeRequest, 1, 0, 0);
    var a := Reaction(false, Some(Release(0, ch, ChargeId(0, 0))), q, None);
    assert React(c, s1.msgs, b, s.msgs[b], q, x) == a;
    hide React;
    var u := Apply(c, s1, b, a);
    assert u.fault.ReleasePanic? && u.msgs == s1.msgs;
    OneReferenceLess(u, b);
  }

  // ---------------------------------------------------------------- an answered request answered again

  /** A Get and its retransmission arrive, neither finds an entry, and both are answered. */
  const ANSWERED_TWICE: seq<Step> := [
    IssueStep(GET), TransmitStep(REQUEST_PORT), TimeoutStep(0), TransmitStep(REQUEST_PORT), DeliverStep(0, MISSED),
    DeliverStep(1, MISSED), TransmitStep(REPLY_PORT), TransmitStep(REPLY_PORT), DeliverStep(2, MISSED),
    DeliverStep(3, MISSED)]

  lemma RequestExpired(s: State, k: Command)
    requires k == GET || k == ACKED_PUT
    requires Shows(s, 1, map[0 := RequestMsg(k, 0, 2)], WaitingRecord(k, 1, 0), Traffic([], [], multiset{0}, [0], []),
                   Used0(TWO_CREDITS), FRESH_FLOW)
    ensures Shows(Next(TWO_CREDITS, s, TimeoutStep(0)), 2, map[0 := RequestMsg(k, 1, 1), 1 := RequestMsg(k, 1, 1)],
                  WaitingRecord(k, 2, 0), Traffic([1], [], multiset{0}, [], []), Used0(TWO_CREDITS), FRESH_FLOW)
  {
    var u := Retransmit(Expired(s, 0), 0, 0);
    RequestRetransmitted(s, k);
    hide Retransmit;
    OneReferenceLess(u, 0);
    hide Unref;
    assert Next(TWO_CREDITS, s, TimeoutStep(0)) == Unref(u, 0);
  }

  lemma RequestRetransmitted(s: State, k: Command)
    requires k == GET || k == ACKED_PUT
    requires Shows(s, 1, map[0 := RequestMsg(k, 0, 2)], WaitingRecord(k, 1, 0), Traffic([], [], multiset{0}, [0], []),
                   Used0(TWO_CREDITS), FRESH_FLOW)
    ensures Shows(Retransmit(Expired(s, 0), 0, 0), 2, map[0 := RequestMsg(k, 1, 2), 1 := RequestMsg(k, 1, 1)],
                  WaitingRecord(k, 2, 0), Traffic([1], [], multiset{0}, [], []), Used0(TWO_CREDITS), FRESH_FLOW)
  {
    var u := Retransmit(Expired(s, 0), 0, 0);
    assert u.msgs == map[0 := RequestMsg(k, 1, 2), 1 := RequestMsg(k, 1, 1)];
    assert u.reqs == map[0 := WaitingRecord(k, 2, 0)];
  }

  lemma RequestRepeats(s: State, k: Command)
    requires Shows(s, 1, map[0 := RequestMsg(k, 0, 2)], WaitingRecord(k, 1, 0), Traffic([], [], multiset{0}, [0], []),
                   Used0(TWO_CREDITS), FRESH_FLOW)
    ensures NotRepeated(TWO_CREDITS, s, TimeoutStep(0))
  {
  }

  lemma CopyLeft(s: State, k: Command)
    requires k == GET || k == ACKED_PUT
    requires Shows(s, 2, map[0 := RequestMsg(k, 1, 1), 1 := RequestMsg(k, 1, 1)], WaitingRecord(k, 2, 0),
                   Traffic([1], [], multiset{0}, [], []), Used0(TWO_CREDITS), FRESH_FLOW)
    ensures Shows(Next(TWO_CREDITS, s, TransmitStep(REQUEST_PORT)), 2,
                  map[0 := RequestMsg(k, 1, 1), 1 := RequestMsg(k, 1, 2)], WaitingRecord(k, 2, 0),
                  Traffic([], [], multiset{0, 1}, [1], []), Used0(TWO_CREDITS), FRESH_FLOW)
  {
    var u := Popped(s, REQUEST_PORT);
    assert Shows(u, 2, map[0 := RequestMsg(k, 1, 1), 1 := RequestMsg(k, 1, 1)], WaitingRecord(k, 2, 0),
                 Traffic([], [], multiset{0}, [], []), Used0(TWO_CREDITS), FRESH_FLOW);
    LeavesFree(TWO_CREDITS, s, REQUEST_PORT);
    hide Transmit, Popped;
    CopyDispatched(u, k);
  }

  lemma CopyDispatched(u: State, k: Command)
    requires k == GET || k == ACKED_PUT
    requires Shows(u, 2, map[0 := RequestMsg(k, 1, 1), 1 := RequestMsg(k, 1, 1)], WaitingRecord(k, 2, 0),
                   Traffic([], [], multiset{0}, [], []), Used0(TWO_CREDITS), FRESH_FLOW)
    ensures Shows(Dispatch(TWO_CREDITS, u, 0, 1), 2, map[0 := RequestMsg(k, 1, 1), 1 := RequestMsg(k, 1, 2)],
                  WaitingRecord(k, 2, 0), Traffic([], [], multiset{0, 1}, [1], []), Used0(TWO_CREDITS), FRESH_FLOW)
  {
    var t := Dispatch(TWO_CREDITS, u, 0, 1);
    assert Reference(u.msgs, 1) == map[0 := RequestMsg(k, 1, 1), 1 := RequestMsg(k, 1, 2)];
    assert t.reqs == map[0 := WaitingRecord(k, 2, 0)];
    assert t.at.net == multiset{0, 1};
  }

  /** The request and its copy are both in flight. */
  lemma CopiesFly(steps: seq<Step>, k: Command)
    requires (k == GET || k == ACKED_PUT) && |steps| >= 4
    requires steps[..4] == [IssueStep(k), TransmitStep(REQUEST_PORT), TimeoutStep(0), TransmitStep(REQUEST_PORT)]
    ensures NotRepeated(TWO_CREDITS, Run(TWO_CREDITS, steps[..2]), TimeoutStep(0))
    ensures Shows(Run(TWO_CREDITS, steps[..4]), 2, map[0 := RequestMsg(k, 1, 1), 1 := RequestMsg(k, 1, 2)],
                  WaitingRecord(k, 2, 0), Traffic([], [], multiset{0, 1}, [1], []), Used0(TWO_CREDITS), FRESH_FLOW)
  {
    var c := TWO_CREDITS;
    hide Next, NotRepeated;
    RunExtends(c, steps, 0);
    RunExtends(c, steps, 1);
    RunExtends(c, steps, 2);
    RunExtends(c, steps, 3);
    assert steps[0] == steps[..4][0] && steps[1] == steps[..4][1] && steps[2] == steps[..4][2];
    assert steps[3] == steps[..4][3] && steps[..0] == [];
    RequestIssued(c, k);
    hide Run, Shows;
    RequestLeft(c, Run(c, steps[..1]), k);
    RequestExpired(Run(c, steps[..2]), k);
    RequestRepeats(Run(c, steps[..2]), k);
    CopyLeft(Run(c, steps[..3]), k);
  }

  /** A Get without an entry is answered although it stays CREATED. */
  lemma GetMissed(s: State, m: MsgId, refs: nat, q: Req)
    requires m in s.msgs && s.msgs[m] == GetMsg(1, refs) && q.phase.Created?
    ensures React(TWO_CREDITS, s.msgs, m, s.msgs[m], q, MISSED) ==
            Reaction(false, None, q, Some(Reply(GetResponse, 0, NiPtDisabled, 0)))
  {
  }

  lemma FirstAnswer(s: State)
    requires Shows(s, 2, map[0 := GetMsg(1, 1), 1 := GetMsg(1, 2)], GetRecord(MISSED, 2, 0),
                   Traffic([], [], multiset{0, 1}, [1], []), Used0(TWO_CREDITS), FRESH_FLOW)
    ensures !SettlesAgain(s, 0)
    ensures Shows(Next(TWO_CREDITS, s, DeliverStep(0, MISSED)), 3,
                  map[1 := GetMsg(1, 2), 2 := ReplyMsg(MISSED, 2, 0, 1)], GetRecord(MISSED, 2, 2),
                  Traffic([], [2], multiset{1}, [1], []), Used0(TWO_CREDITS), FRESH_FLOW)
  {
    var q := GetRecord(MISSED, 2, 0);
    var s1 := Arrived(s, 0);
    GetMissed(s1, 0, 1, q);
    hide React;
    var u := Answer(s1, 0, q, Reply(GetResponse, 0, NiPtDisabled, 0));
    assert u.msgs == map[0 := GetMsg(1, 1), 1 := GetMsg(1, 2), 2 := ReplyMsg(MISSED, 2, 0, 1)];
    assert u.reqs == map[0 := GetRecord(MISSED, 3, 2)];
    assert Q(u.at.tx, REPLY_PORT) == [2];
    LastReference(u);
    hide Answer, Unref;
    assert Next(TWO_CREDITS, s, DeliverStep(0, MISSED)) == Unref(u, 0);
  }

  lemma LastReference(u: State)
    requires u.msgs == map[0 := GetMsg(1, 1), 1 := GetMsg(1, 2), 2 := ReplyMsg(MISSED, 2, 0, 1)]
    requires u.reqs == map[0 := GetRecord(MISSED, 3, 2)]
    ensures var t := Unref(u, 0);
      && t.msgs == map[1 := GetMsg(1, 2), 2 := ReplyMsg(MISSED, 2, 0, 1)] && t.reqs == map[0 := GetRecord(MISSED, 2, 2)]
      && t.fault == u.fault && t.next == u.next && t.at == u.at && t.flows == u.flows
  {
    assert u.msgs - {0} == map[1 := GetMsg(1, 2), 2 := ReplyMsg(MISSED, 2, 0, 1)];
    assert u.reqs[0 := GetRecord(MISSED, 2, 2)] == map[0 := GetRecord(MISSED, 2, 2)];
  }

  lemma SecondAnswer(s: State)
    requires Shows(s, 3, map[1 := GetMsg(1, 2), 2 := ReplyMsg(MISSED, 2, 0, 1)], GetRecord(MISSED, 2, 2),
                   Traffic([], [2], multiset{1}, [1], []), Used0(TWO_CREDITS), FRESH_FLOW)
    ensures AnswersAgain(TWO_CREDITS, s, 1, MISSED) && !SettlesAgain(s, 1)
    ensures Shows(Next(TWO_CREDITS, s, DeliverStep(1, MISSED)), 4,
                  map[1 := GetMsg(1, 1), 2 := ReplyMsg(MISSED, 2, 0, 1), 3 := ReplyMsg(MISSED, 3, 0, 1)],
                  GetRecord(MISSED, 3, 3), Traffic([], [2, 3], multiset{}, [1], []), Used0(TWO_CREDITS), FRESH_FLOW)
  {
    var q := GetRecord(MISSED, 2, 2);
    var s1 := Arrived(s, 1);
    GetMissed(s1, 1, 2, q);
    hide React;
    var u := Answer(s1, 1, q, Reply(GetResponse, 0, NiPtDisabled, 0));
    assert u.msgs == map[1 := GetMsg(1, 2), 2 := ReplyMsg(MISSED, 2, 0, 1), 3 := ReplyMsg(MISSED, 3, 0, 1)];
    assert u.reqs == map[0 := GetRecord(MISSED, 3, 3)];
    assert Q(u.at.tx, REPLY_PORT) == [2, 3];
    hide Answer;
    OneReferenceLess(u, 1);
    hide Unref;
    assert Next(TWO_CREDITS, s, DeliverStep(1, MISSED)) == Unref(u, 1);
  }

  lemma FirstAnswerLeft(s: State)
    requires Shows(s, 4, map[1 := GetMsg(1, 1), 2 := ReplyMsg(MISSED, 2, 0, 1), 3 := ReplyMsg(MISSED, 3, 0, 1)],
                   GetRecord(MISSED, 3, 3), Traffic([], [2, 3], multiset{}, [1], []), Used0(TWO_CREDITS), FRESH_FLOW)
    ensures Shows(Next(TWO_CREDITS, s, TransmitStep(REPLY_PORT)), 4,
                  map[1 := GetMsg(1, 1), 2 := ReplyMsg(MISSED, 2, 0, 2), 3 := ReplyMsg(MISSED, 3, 0, 1)],
                  GetRecord(MISSED, 3, 3), Traffic([], [3], multiset{2}, [1], [2]), Used0(TWO_CREDITS),
                  Used1(TWO_CREDITS, 1))
  {
    var msgs := map[1 := GetMsg(1, 1), 2 := ReplyMsg(MISSED, 2, 0, 1), 3 := ReplyMsg(MISSED, 3, 0, 1)];
    var at := Traffic([], [2, 3], multiset{}, [1], []);
    hide Next, Shows;
    ReplyLeft(TWO_CREDITS, s, 2, ReplyMsg(MISSED, 2, 0, 1), 4, msgs, GetRecord(MISSED, 3, 3), at, 0);
    assert msgs[2 := ReplyMsg(MISSED, 2, 0, 2)] ==
           map[1 := GetMsg(1, 1), 2 := ReplyMsg(MISSED, 2, 0, 2), 3 := ReplyMsg(MISSED, 3, 0, 1)];
    assert at.(replies := at.replies[1..], net := at.net + multiset{2}, watchedReplies := at.watchedReplies + [2]) ==
           Traffic([], [3], multiset{2}, [1], [2]);
  }

  lemma SecondAnswerLeft(s: State)
    requires Shows(s, 4, map[1 := GetMsg(1, 1), 2 := ReplyMsg(MISSED, 2, 0, 2), 3 := ReplyMsg(MISSED, 3, 0, 1)],
                   GetRecord(MISSED, 3, 3), Traffic([], [3], multiset{2}, [1], [2]), Used0(TWO_CREDITS),
                   Used1(TWO_CREDITS, 1))
    ensures TwoReplies(TWO_CREDITS, Next(TWO_CREDITS, s, TransmitStep(REPLY_PORT)), 2, 3)
  {
    var msgs := map[1 := GetMsg(1, 1), 2 := ReplyMsg(MISSED, 2, 0, 2), 3 := ReplyMsg(MISSED, 3, 0, 1)];
    var at := Traffic([], [3], multiset{2}, [1], [2]);
    hide Next, Shows;
    ReplyLeft(TWO_CREDITS, s, 3, ReplyMsg(MISSED, 3, 0, 1), 4, msgs, GetRecord(MISSED, 3, 3), at, 1);
    BothInFlight(Next(TWO_CREDITS, s, TransmitStep(REPLY_PORT)), msgs, at);
  }

  lemma BothInFlight(t: State, msgs: map<MsgId, Msg>, at: Traffic)
    requires msgs == map[1 := GetMsg(1, 1), 2 := ReplyMsg(MISSED, 2, 0, 2), 3 := ReplyMsg(MISSED, 3, 0, 1)]
    requires at == Traffic([], [3], multiset{2}, [1], [2])
    requires Shows(t, 4, msgs[3 := ReplyMsg(MISSED, 3, 0, 2)], GetRecord(MISSED, 3, 3),
                   at.(replies := at.replies[1..], net := at.net + multiset{3},
                       watchedReplies := at.watchedReplies + [3]),
                   Used0(TWO_CREDITS), Used1(TWO_CREDITS, 2))
    ensures TwoReplies(TWO_CREDITS, t, 2, 3)
  {
  }

  lemma GetAnsweredTwice()
    ensures AnswersAgain(TWO_CREDITS, Run(TWO_CREDITS, ANSWERED_TWICE[..5]), 1, MISSED)
    ensures !SettlesAgain(Run(TWO_CREDITS, ANSWERED_TWICE[..4]), 0)
    ensures !SettlesAgain(Run(TWO_CREDITS, ANSWERED_TWICE[..5]), 1)
    ensures Shows(Run(TWO_CREDITS, ANSWERED_TWICE[..6]), 4,
                  map[1 := GetMsg(1, 1), 2 := ReplyMsg(MISSED, 2, 0, 1), 3 := ReplyMsg(MISSED, 3, 0, 1)],
                  GetRecord(MISSED, 3, 3), Traffic([], [2, 3], multiset{}, [1], []), Used0(TWO_CREDITS), FRESH_FLOW)
  {
    var c, steps := TWO_CREDITS, ANSWERED_TWICE;
    hide Next, AnswersAgain, SettlesAgain, NotRepeated;
    RunExtends(c, steps, 4);
    RunExtends(c, steps, 5);
    hide Run, Shows;
    CopiesFly(steps, GET);
    FirstAnswer(Run(c, steps[..4]));
    SecondAnswer(Run(c, steps[..5]));
  }

  lemma AnswersFly()
    ensures TwoReplies(TWO_CREDITS, Run(TWO_CREDITS, ANSWERED_TWICE[..8]), 2, 3)
  {
    var c, steps := TWO_CREDITS, ANSWERED_TWICE;
    hide Next, TwoReplies;
    RunExtends(c, steps, 6);
    RunExtends(c, steps, 7);
    hide Run, Shows;
    GetAnsweredTwice();
    FirstAnswerLeft(Run(c, steps[..6]));
    SecondAnswerLeft(Run(c, steps[..7]));
  }

  lemma {:induction false} SettlesOnceUntil(c: Config, steps: seq<Step>, n: nat)
    requires n <= |steps|
    requires forall i: nat {:trigger steps[i]} :: i < n ==> !SettlesTwice(Run(c, steps[..i]), steps[i])
    ensures NeverSettlesTwice(c, steps[..n])
  {
    hide Run, SettlesTwice;
    if n > 0 {
      SettlesOnceUntil(c, steps, n - 1);
      assert steps[..n][..n - 1] == steps[..n - 1];
    }
  }

  /** The Get that nobody takes is answered twice. Both responses are charged, and the run conserves every credit
      until the second one gives the credit of the Get back a second time, which aborts the program. No reply was
      retransmitted in this run. */
  lemma SecondAnswerPanics()
    ensures Run(TWO_CREDITS, ANSWERED_TWICE).fault.ReleasePanic? && !CleanRun(TWO_CREDITS, ANSWERED_TWICE)
    ensures Conserves(TWO_CREDITS, ANSWERED_TWICE[..9])
    ensures SettlesTwice(Run(TWO_CREDITS, ANSWERED_TWICE[..9]), ANSWERED_TWICE[9])
    ensures AnswersAgain(TWO_CREDITS, Run(TWO_CREDITS, ANSWERED_TWICE[..5]), 1, MISSED)
    ensures forall i: nat :: i < |ANSWERED_TWICE| ==>
      NotRepeated(TWO_CREDITS, Run(TWO_CREDITS, ANSWERED_TWICE[..i]), ANSWERED_TWICE[i])
  {
    var c, steps := TWO_CREDITS, ANSWERED_TWICE;
    hide Next, CleanRun, Run, TwoReplies, OneReply, Conserves, RepliesOnce, Shows, AnswersAgain, SettlesAgain;
    RunExtends(c, steps, 8);
    RunExtends(c, steps, 9);
    assert steps[..10] == steps;
    GetAnsweredTwice();
    AnswersFly();
    FirstReplyHandled(c, Run(c, steps[..8]), 2, 3, MISSED);
    SecondReplyPanics(c, Run(c, steps[..9]), 3, MISSED);
    SettlesOnceUntil(c, steps, 9);
    ConservesExactly(c, steps[..9]);
    CopiesFly(steps, GET);
    if CleanRun(c, steps) { CreditConservation(c, steps); }
  }

  // ---------------------------------------------------------------- an E2E ACK for a request answered otherwise

  /** A Put finds no entry, which is reported by a Portals ACK; its retransmission finds an entry that does not
      acknowledge, and is answered by an E2E ACK. */
  const ANSWERED_OTHERWISE: seq<Step> := [
    IssueStep(ACKED_PUT), TransmitStep(REQUEST_PORT), TimeoutStep(0), TransmitStep(REQUEST_PORT),
    DeliverStep(0, MISSED), DeliverStep(1, UNACKED), TransmitStep(REPLY_PORT), TransmitStep(REPLY_PORT),
    DeliverStep(2, MISSED), DeliverStep(3, MISSED)]

  /** The Put, its copy, and the two answers made so far. */
  function PutMessages(ack: nat, answers: nat): map<MsgId, Msg> {
    var one := map[0 := RequestMsg(ACKED_PUT, 1, 1), 1 := RequestMsg(ACKED_PUT, 1, 2),
                   2 := PutAnswer(PtlAck, NiPtDisabled, 0, 2, ack)];
    if answers == 1 then one else one[3 := PutAnswer(E2eAck, NiOk, 1, 3, 1)]
  }

  function PutTakenRecord(): Req {
    Req(ACKED_PUT, Received, 4, false, false, Some(UNACKED), [], [Effect], None, 3)
  }

  lemma PutMissed(s: State)
    requires Shows(s, 2, map[0 := RequestMsg(ACKED_PUT, 1, 1), 1 := RequestMsg(ACKED_PUT, 1, 2)],
                   WaitingRecord(ACKED_PUT, 2, 0), Traffic([], [], multiset{0, 1}, [1], []), Used0(TWO_CREDITS),
                   FRESH_FLOW)
    ensures !SettlesAgain(s, 0)
    ensures Shows(Next(TWO_CREDITS, s, DeliverStep(0, MISSED)), 3, PutMessages(1, 1), WaitingRecord(ACKED_PUT, 3, 2),
                  Traffic([], [2], multiset{1}, [1], []), Used0(TWO_CREDITS), FRESH_FLOW)
  {
    var c, q, reply := TWO_CREDITS, WaitingRecord(ACKED_PUT, 2, 0), Reply(PtlAck, 0, NiPtDisabled, ACK_SIZE);
    var s1, a := Arrived(s, 0), Reaction(false, None, q, Some(reply));
    assert React(c, s1.msgs, 0, s1.msgs[0], q, MISSED) == a;
    hide React;
    var u := Answer(s1, 0, q, reply);
    assert u.msgs == PutMessages(1, 1)[0 := RequestMsg(ACKED_PUT, 1, 2)];
    assert u.reqs == map[0 := WaitingRecord(ACKED_PUT, 3, 2)];
    assert Q(u.at.tx, REPLY_PORT) == [2];
    hide Answer;
    OneReferenceLess(u, 0);
    hide Unref;
    assert Next(c, s, DeliverStep(0, MISSED)) == Unref(u, 0);
    assert u.msgs[0 := RequestMsg(ACKED_PUT, 1, 1)] == PutMessages(1, 1);
  }

  lemma CopyFound(s: State)
    requires Shows(s, 3, PutMessages(1, 1), WaitingRecord(ACKED_PUT, 3, 2), Traffic([], [2], multiset{1}, [1], []),
                   Used0(TWO_CREDITS), FRESH_FLOW)
    ensures !SettlesAgain(s, 1)
    ensures Shows(Next(TWO_CREDITS, s, DeliverStep(1, UNACKED)), 4, PutMessages(1, 2), PutTakenRecord(),
                  Traffic([], [2, 3], multiset{}, [1], []), Used0(TWO_CREDITS), FRESH_FLOW)
  {
    var c, q, reply := TWO_CREDITS, WaitingRecord(ACKED_PUT, 3, 2), Reply(E2eAck, 0, NiOk, ACK_SIZE);
    var s1 := Arrived(s, 1);
    var a := Reaction(false, None, PutEvent(Recorded(q, 1, UNACKED)), Some(reply));
    assert React(c, s1.msgs, 1, s1.msgs[1], q, UNACKED) == a;
    hide React;
    assert a.req == PutTakenRecord().(msgRefs := 3, token := 2);
    hide Recorded, PutEvent;
    var u := Answer(s1, 1, a.req, reply);
    assert u.msgs == PutMessages(1, 2)[1 := RequestMsg(ACKED_PUT, 1, 3)];
    assert u.reqs == map[0 := PutTakenRecord()];
    assert Q(u.at.tx, REPLY_PORT) == [2, 3];
    hide Answer;
    OneReferenceLess(u, 1);
    hide Unref;
    assert Next(c, s, DeliverStep(1, UNACKED)) == Unref(u, 1);
    assert u.msgs[1 := RequestMsg(ACKED_PUT, 1, 2)] == PutMessages(1, 2);
  }

  lemma FailureLeft(s: State)
    requires Shows(s, 4, PutMessages(1, 2), PutTakenRecord(), Traffic([], [2, 3], multiset{}, [1], []),
                   Used0(TWO_CREDITS), FRESH_FLOW)
    ensures Shows(Next(TWO_CREDITS, s, TransmitStep(REPLY_PORT)), 4, PutMessages(2, 2), PutTakenRecord(),
                  Traffic([], [3], multiset{2}, [1], [2]), Used0(TWO_CREDITS), Used1(TWO_CREDITS, 1))
  {
    var msgs, msg := PutMessages(1, 2), PutAnswer(PtlAck, NiPtDisabled, 0, 2, 1);
    var at := Traffic([], [2, 3], multiset{}, [1], []);
    hide Next, Shows;
    ReplyLeft(TWO_CREDITS, s, 2, msg, 4, msgs, PutTakenRecord(), at, 0);
    assert msgs[2 := msg.(refCount := 2)] == PutMessages(2, 2);
    assert at.(replies := at.replies[1..], net := at.net + multiset{2}, watchedReplies := at.watchedReplies + [2]) ==
           Traffic([], [3], multiset{2}, [1], [2]);
  }

  /** The E2E ACK needs no credit and is not watched. */
  lemma ConfirmationLeft(s: State)
    requires Shows(s, 4, PutMessages(2, 2), PutTakenRecord(), Traffic([], [3], multiset{2}, [1], [2]),
                   Used0(TWO_CREDITS), Used1(TWO_CREDITS, 1))
    ensures AcksFly(Next(TWO_CREDITS, s, TransmitStep(REPLY_PORT)))
  {
    LeavesFree(TWO_CREDITS, s, REPLY_PORT);
    hide Transmit;
    var u := Popped(s, REPLY_PORT);
    var t := Dispatch(TWO_CREDITS, u, 1, 3);
    assert OnDispatch(TWO_CREDITS, s.msgs[3], PutTakenRecord()) == PutTakenRecord();
    assert t.reqs == map[0 := PutTakenRecord()];
    assert t.at.net == multiset{2, 3};
  }

  /** Both answers are in flight, and the credit of the Put is out. */
  ghost predicate AcksFly(s: State) {
    && s.fault.NoFault? && 2 in s.at.net && 3 in s.at.net && s.next == 4 && 1 in s.msgs && 2 in s.msgs && 3 in s.msgs
    && s.msgs[1] == RequestMsg(ACKED_PUT, 1, 2) && s.msgs[2] == PutAnswer(PtlAck, NiPtDisabled, 0, 2, 2)
    && s.msgs[3] == PutAnswer(E2eAck, NiOk, 1, 3, 1)
    && 0 in s.reqs && s.reqs[0] == PutTakenRecord() && FlowOf(s, 0) == Used0(TWO_CREDITS)
  }

  /** The Put is ANSWERED and its counter full, while the E2E ACK of its copy is in flight. */
  ghost predicate AckOutstanding(s: State) {
    && s.fault.NoFault? && 3 in s.at.net && 3 in s.msgs && s.msgs[3] == PutAnswer(E2eAck, NiOk, 1, 3, 1)
    && 1 in s.msgs && s.msgs[1] == RequestMsg(ACKED_PUT, 1, 2)
    && 0 in s.reqs && s.reqs[0].command == ACKED_PUT && s.reqs[0].phase.Answered?
    && NodeFree(TWO_CREDITS, FlowOf(s, 0), ComputeRequest, 1) == TWO_CREDITS.maxToTarget
  }

  lemma FailureHandled(s: State)
    requires AcksFly(s)
    ensures AckOutstanding(Next(TWO_CREDITS, s, DeliverStep(2, MISSED))) && !SettlesAgain(s, 2)
  {
    var c, ch, q := TWO_CREDITS, Channel(ComputeRequest, 1, 0, 0), PutTakenRecord();
    var reply := Reply(E2eAck, 0, NiOk, ACK_SIZE);
    var s1 := Arrived(s, 2);
    var a := React(c, s1.msgs, 2, s1.msgs[2], q, MISSED);
    FailureReaction(s1.msgs, q, MISSED);
    hide React, PutTakenRecord, RequestMsg;
    var s2 := ReleaseAt(c, s1, 0, ch, ChargeId(0, 0));
    CreditBack(c, s1, ch, ChargeId(0, 0));
    hide ReleaseAt, Answer;
    var u := Answer(s2, 2, a.req, reply);
    ReplyAcked(s2, 2, 3, a.req, reply);
    ReplyAcked(s2, 2, 1, a.req, reply);
    assert Apply(c, s1, 2, a) == u;
    hide Apply;
    OneReferenceLess(u, 2);
    hide Unref;
    assert Next(c, s, DeliverStep(2, MISSED)) == Unref(u, 2);
  }

  lemma FailureReaction(msgs: map<MsgId, Msg>, q: Req, x: Match)
    requires 2 in msgs && msgs[2] == PutAnswer(PtlAck, NiPtDisabled, 0, 2, 2) && q == PutTakenRecord()
    ensures var a := React(TWO_CREDITS, msgs, 2, msgs[2], q, x);
      && a.Reaction? && !a.keeps
      && a.gives == Some(Release(0, Channel(ComputeRequest, 1, 0, 0), ChargeId(0, 0)))
      && a.sends == Some(Reply(E2eAck, 0, NiOk, ACK_SIZE)) && a.req.phase.Answered? && a.req.command == ACKED_PUT
  {
  }

  lemma ConfirmationReaction(msgs: map<MsgId, Msg>, q: Req, x: Match)
    requires 3 in msgs && msgs[3] == PutAnswer(E2eAck, NiOk, 1, 3, 1)
    requires 1 in msgs && msgs[1] == RequestMsg(ACKED_PUT, 1, 2) && q.command == ACKED_PUT && q.phase.Answered?
    ensures var a := React(TWO_CREDITS, msgs, 3, msgs[3], q, x);
      && a.Reaction? && !a.keeps && a.sends.None?
      && a.gives == Some(Release(0, Channel(ComputeRequest, 1, 0, 0), ChargeId(0, 0)))
  {
    hide Concluded;
  }

  /** A give-back on a full counter. */
  lemma FullPanics(c: Config, s: State, m: MsgId, a: Reaction)
    requires Plain(c) && m in s.msgs && a.Reaction? && !a.keeps && a.sends.None?
    requires a.gives == Some(Release(0, Channel(ComputeRequest, 1, 0, 0), ChargeId(0, 0)))
    requires NodeFree(c, FlowOf(s, 0), ComputeRequest, 1) == c.maxToTarget
    ensures Apply(c, s, m, a).fault.ReleasePanic?
  {
    ReleaseFlows(c, s, 0, Channel(ComputeRequest, 1, 0, 0), ChargeId(0, 0));
    hide ReleaseAt;
  }

  lemma PanicStays(c: Config, s: State, m: MsgId, x: Match)
    requires Sound(s) && s.fault.NoFault? && m in s.at.net
    ensures Live(Arrived(s, m), m)
    ensures Next(c, s, DeliverStep(m, x)).fault ==
            Apply(c, Arrived(s, m), m, ReactionTo(c, Arrived(s, m), m, x)).fault
  {
    hide Sound, Apply, ReactionTo, Settles, Deliver;
    DeliverParts(c, s, m, x);
    SettlesFault(Apply(c, Arrived(s, m), m, ReactionTo(c, Arrived(s, m), m, x)), Deliver(c, s, m, x));
  }

  /** The E2E ACK gives the credit of the Put back although the Put is ANSWERED. */
  lemma ConfirmationPanics(s: State)
    requires AckOutstanding(s) && Sound(s)
    ensures Next(TWO_CREDITS, s, DeliverStep(3, MISSED)).fault.ReleasePanic? && SettlesAgain(s, 3)
  {
    var c, s1 := TWO_CREDITS, Arrived(s, 3);
    hide React, Apply, Sound, Next;
    ConfirmationReaction(s1.msgs, s.reqs[0], MISSED);
    FullPanics(c, s1, 3, ReactionTo(c, s1, 3, MISSED));
    PanicStays(c, s, 3, MISSED);
  }

  lemma OtherwiseAnswered()
    ensures Shows(Run(TWO_CREDITS, ANSWERED_OTHERWISE[..6]), 4, PutMessages(1, 2), PutTakenRecord(),
                  Traffic([], [2, 3], multiset{}, [1], []), Used0(TWO_CREDITS), FRESH_FLOW)
    ensures !SettlesAgain(Run(TWO_CREDITS, ANSWERED_OTHERWISE[..4]), 0)
    ensures !SettlesAgain(Run(TWO_CREDITS, ANSWERED_OTHERWISE[..5]), 1)
  {
    var c, steps := TWO_CREDITS, ANSWERED_OTHERWISE;
    hide Next, SettlesAgain, NotRepeated;
    RunExtends(c, steps, 4);
    RunExtends(c, steps, 5);
    hide Run, Shows;
    CopiesFly(steps, ACKED_PUT);
    PutMissed(Run(c, steps[..4]));
    CopyFound(Run(c, steps[..5]));
  }

  lemma OtherAnswersLeft()
    ensures AcksFly(Run(TWO_CREDITS, ANSWERED_OTHERWISE[..8]))
  {
    var c, steps := TWO_CREDITS, ANSWERED_OTHERWISE;
    hide Next, AcksFly;
    RunExtends(c, steps, 6);
    RunExtends(c, steps, 7);
    hide Run, Shows;
    OtherwiseAnswered();
    FailureLeft(Run(c, steps[..6]));
    ConfirmationLeft(Run(c, steps[..7]));
  }

  /** The second way in which a request is settled twice: an E2E ACK that answers a request message is handled for a
      request that another answer has made ANSWERED. The run conserves its credits until then, and aborts. */
  lemma LateAckPanics()
    ensures Run(TWO_CREDITS, ANSWERED_OTHERWISE).fault.ReleasePanic?
    ensures Conserves(TWO_CREDITS, ANSWERED_OTHERWISE[..9])
    ensures SettlesTwice(Run(TWO_CREDITS, ANSWERED_OTHERWISE[..9]), ANSWERED_OTHERWISE[9])
  {
    var c, steps := TWO_CREDITS, ANSWERED_OTHERWISE;
    hide Next, Conserves, SettlesAgain, AckOutstanding, Sound, AcksFly;
    RunExtends(c, steps, 8);
    RunExtends(c, steps, 9);
    assert steps[..10] == steps;
    RunSound(c, steps[..9]);
    hide Run;
    OtherwiseAnswered();
    OtherAnswersLeft();
    FailureHandled(Run(c, steps[..8]));
    ConfirmationPanics(Run(c, steps[..9]));
    forall i: nat {:trigger steps[i]} | i < 9 ensures !SettlesTwice(Run(c, steps[..i]), steps[i]) {
      if i != 4 && i != 5 && i != 8 { assert !steps[i].DeliverStep?; }
    }
    SettlesOnceUntil(c, steps, 9);
    ConservesExactly(c, steps[..9]);
  }

  // ---------------------------------------------------------------- a response sent twice

  /** A response is slow, so it is retransmitted although it arrives. */
  const REPEATED_REPLY: seq<Step> := [
    IssueStep(GET), TransmitStep(REQUEST_PORT), DeliverStep(0, FOUND), TransmitStep(REPLY_PORT),
    TimeoutStep(1), TransmitStep(REPLY_PORT), DeliverStep(1, FOUND), DeliverStep(2, FOUND)]

  lemma GetFound(s: State)
    requires Shows(s, 1, map[0 := GetMsg(0, 2)], GetRecord(MISSED, 1, 0), Traffic([], [], multiset{0}, [0], []),
                   Used0(ONE_CREDIT), FRESH_FLOW)
    ensures NotAnsweredTwice(ONE_CREDIT, s, DeliverStep(0, FOUND)) && !SettlesAgain(s, 0)
    ensures Shows(Next(ONE_CREDIT, s, DeliverStep(0, FOUND)), 2, map[0 := GetMsg(0, 1), 1 := ReplyMsg(FOUND, 1, 0, 1)],
                  GetRecord(FOUND, 2, 1), Traffic([], [1], multiset{}, [0], []), Used0(ONE_CREDIT), FRESH_FLOW)
  {
    var c, q, reply := ONE_CREDIT, GetRecord(MISSED, 1, 0), Reply(GetResponse, 0, NiOk, 8);
    var s1 := Arrived(s, 0);
    var a := Reaction(false, None, Recorded(q, 0, FOUND), Some(reply));
    assert React(c, s1.msgs, 0, GetMsg(0, 2), q, FOUND) == a;
    hide React;
    assert a.req.targetLog == [Effect];
    var u := Answer(s1, 0, a.req, reply);
    assert u.msgs == map[0 := GetMsg(0, 2), 1 := ReplyMsg(FOUND, 1, 0, 1)];
    assert u.reqs == map[0 := GetRecord(FOUND, 2, 1)];
    assert Q(u.at.tx, REPLY_PORT) == [1];
    hide Answer;
    assert Apply(c, s1, 0, a) == u;
    OneReferenceLess(u, 0);
    hide Unref;
    assert Next(c, s, DeliverStep(0, FOUND)) == Unref(u, 0);
  }

  lemma ReplyExpired(s: State)
    requires Shows(s, 2, map[0 := GetMsg(0, 1), 1 := ReplyMsg(FOUND, 1, 0, 2)], GetRecord(FOUND, 2, 1),
                   Traffic([], [], multiset{1}, [0], [1]), Used0(ONE_CREDIT), Used1(ONE_CREDIT, 1))
    ensures Shows(Next(ONE_CREDIT, s, TimeoutStep(1)), 3,
                  map[0 := GetMsg(0, 1), 1 := ReplyMsg(FOUND, 1, 1, 1), 2 := ReplyMsg(FOUND, 1, 1, 1)],
                  GetRecord(FOUND, 3, 1), Traffic([], [2], multiset{1}, [0], []), Used0(ONE_CREDIT),
                  Used1(ONE_CREDIT, 1))
  {
    var s1 := Expired(s, 1);
    var u := Retransmit(s1, 1, 1);
    assert u.msgs == map[0 := GetMsg(0, 1), 1 := ReplyMsg(FOUND, 1, 1, 2), 2 := ReplyMsg(FOUND, 1, 1, 1)];
    assert u.reqs == map[0 := GetRecord(FOUND, 3, 1)];
    assert Q(u.at.tx, REPLY_PORT) == [2];
    hide Retransmit;
    OneReferenceLess(u, 1);
    hide Unref;
    assert Next(ONE_CREDIT, s, TimeoutStep(1)) == Unref(u, 1);
  }

  lemma ReplyLeftAgain(s: State)
    requires Shows(s, 3, map[0 := GetMsg(0, 1), 1 := ReplyMsg(FOUND, 1, 1, 1), 2 := ReplyMsg(FOUND, 1, 1, 1)],
                   GetRecord(FOUND, 3, 1), Traffic([], [2], multiset{1}, [0], []), Used0(ONE_CREDIT),
                   Used1(ONE_CREDIT, 1))
    ensures var t := Next(ONE_CREDIT, s, TransmitStep(REPLY_PORT));
      && t.fault.NoFault? && t.next == 3 && t.at.net == multiset{1, 2} && FlowOf(t, 0) == Used0(ONE_CREDIT)
      && t.msgs == map[0 := GetMsg(0, 1), 1 := ReplyMsg(FOUND, 1, 1, 1), 2 := ReplyMsg(FOUND, 1, 1, 2)]
      && t.reqs == map[0 := GetRecord(FOUND, 3, 1)]
  {
    var u := Popped(s, REPLY_PORT);
    ReplyDispatched(ONE_CREDIT, u, 2, ReplyMsg(FOUND, 1, 1, 1), 3, s.msgs, s.reqs[0],
                    Traffic([], [], multiset{1}, [0], []), 1);
    assert u.msgs[2 := ReplyMsg(FOUND, 1, 1, 2)] ==
           map[0 := GetMsg(0, 1), 1 := ReplyMsg(FOUND, 1, 1, 1), 2 := ReplyMsg(FOUND, 1, 1, 2)];
    hide Dispatch;
    assert Next(ONE_CREDIT, s, TransmitStep(REPLY_PORT)) == Dispatch(ONE_CREDIT, u, 1, 2);
  }

  lemma GetFlies()
    ensures Shows(Run(ONE_CREDIT, REPEATED_REPLY[..2]), 1, map[0 := GetMsg(0, 2)], GetRecord(MISSED, 1, 0),
                  Traffic([], [], multiset{0}, [0], []), Used0(ONE_CREDIT), FRESH_FLOW)
  {
    var c, steps := ONE_CREDIT, REPEATED_REPLY;
    hide Next;
    RunExtends(c, steps, 0);
    RunExtends(c, steps, 1);
    assert steps[..0] == [];
    RequestIssued(c, GET);
    hide Run, Shows;
    RequestLeft(c, Run(c, steps[..1]), GET);
  }

  lemma ReplyFlies()
    ensures Shows(Run(ONE_CREDIT, REPEATED_REPLY[..4]), 2, map[0 := GetMsg(0, 1), 1 := ReplyMsg(FOUND, 1, 0, 2)],
                  GetRecord(FOUND, 2, 1), Traffic([], [], multiset{1}, [0], [1]), Used0(ONE_CREDIT),
                  Used1(ONE_CREDIT, 1))
  {
    var c, steps := ONE_CREDIT, REPEATED_REPLY;
    hide Next, Run, Shows, NotAnsweredTwice;
    RunExtends(c, steps, 2);
    RunExtends(c, steps, 3);
    GetFlies();
    GetFound(Run(c, steps[..2]));
    var msgs := map[0 := GetMsg(0, 1), 1 := ReplyMsg(FOUND, 1, 0, 1)];
    var at := Traffic([], [1], multiset{}, [0], []);
    ReplyLeft(c, Run(c, steps[..3]), 1, ReplyMsg(FOUND, 1, 0, 1), 2, msgs, GetRecord(FOUND, 2, 1), at, 0);
    assert msgs[1 := ReplyMsg(FOUND, 1, 0, 2)] == map[0 := GetMsg(0, 1), 1 := ReplyMsg(FOUND, 1, 0, 2)];
    assert at.(replies := at.replies[1..], net := at.net + multiset{1}, watchedReplies := at.watchedReplies + [1]) ==
           Traffic([], [], multiset{1}, [0], [1]);
  }

  lemma CopiesOfReplyFly()
    ensures TwoReplies(ONE_CREDIT, Run(ONE_CREDIT, REPEATED_REPLY[..6]), 1, 2)
  {
    var c, steps := ONE_CREDIT, REPEATED_REPLY;
    hide Next, Run, Shows;
    RunExtends(c, steps, 4);
    RunExtends(c, steps, 5);
    ReplyFlies();
    ReplyExpired(Run(c, steps[..4]));
    ReplyLeftAgain(Run(c, steps[..5]));
  }

  /** The response gives its request's credit back twice: the second time aborts the program, and until then the run
      conserves every credit. No request was answered twice in this run. */
  lemma RepeatedReplyPanics()
    ensures Run(ONE_CREDIT, REPEATED_REPLY).fault.ReleasePanic? && !CleanRun(ONE_CREDIT, REPEATED_REPLY)
    ensures Conserves(ONE_CREDIT, REPEATED_REPLY[..7])
    ensures SettlesTwice(Run(ONE_CREDIT, REPEATED_REPLY[..7]), REPEATED_REPLY[7])
    ensures forall i: nat :: i < |REPEATED_REPLY| ==>
      NotAnsweredTwice(ONE_CREDIT, Run(ONE_CREDIT, REPEATED_REPLY[..i]), REPEATED_REPLY[i])
  {
    var c, steps := ONE_CREDIT, REPEATED_REPLY;
    hide Next, CleanRun, Run, Conserves, Shows, ReactionTo, SettlesAgain;
    RunExtends(c, steps, 6);
    RunExtends(c, steps, 7);
    assert steps[..8] == steps;
    CopiesOfReplyFly();
    FirstReplyHandled(c, Run(c, steps[..6]), 1, 2, FOUND);
    SecondReplyPanics(c, Run(c, steps[..7]), 2, FOUND);
    GetFlies();
    GetFound(Run(c, steps[..2]));
    SettlesOnceUntil(c, steps, 7);
    ConservesExactly(c, steps[..7]);
    if CleanRun(c, steps) { CreditConservation(c, steps); }
  }

  // ---------------------------------------------------------------- a Put nobody takes

  const LOSING_RUN: seq<Step> := [
    IssueStep(PUT), TransmitStep(REQUEST_PORT), DeliverStep(0, MISSED), TimeoutStep(0)]

  lemma PutIssued()
    ensures Shows(Next(NO_RETRY, INIT, IssueStep(PUT)), 1, map[0 := PutMsg(1)], PutRecord(false),
                  Traffic([0], [], multiset{}, [], []), FRESH_FLOW, FRESH_FLOW)
  {
  }

  lemma PutLeft(s: State)
    requires Shows(s, 1, map[0 := PutMsg(1)], PutRecord(false), Traffic([0], [], multiset{}, [], []),
                   FRESH_FLOW, FRESH_FLOW)
    ensures Shows(Next(NO_RETRY, s, TransmitStep(REQUEST_PORT)), 1, map[0 := PutMsg(2)], PutRecord(true),
                  Traffic([], [], multiset{0}, [0], []), Used0(NO_RETRY), FRESH_FLOW)
  {
    var c, msg, q := NO_RETRY, PutMsg(1), PutRecord(false);
    TakesCredit(c, FRESH_FLOW, ChargedChannel(msg, q));
    hide CheckFlowctrl, Dispatch;
    var f := Flow(map[(ComputeRequest, 1) := 0], map[], MAX_E2E_ENTRIES);
    var u := ChargeFor(Popped(s, REQUEST_PORT), 0, f, msg, q);
    assert Shows(u, 1, map[0 := msg], q, Traffic([], [], multiset{}, [], []), Used0(c), FRESH_FLOW);
    Leaves(c, s, REQUEST_PORT, f);
    hide Transmit;
    PutDispatched(u);
  }

  lemma PutDispatched(u: State)
    requires Shows(u, 1, map[0 := PutMsg(1)], PutRecord(false), Traffic([], [], multiset{}, [], []),
                   Used0(NO_RETRY), FRESH_FLOW)
    ensures Shows(Dispatch(NO_RETRY, u, 0, 0), 1, map[0 := PutMsg(2)], PutRecord(true),
                  Traffic([], [], multiset{0}, [0], []), Used0(NO_RETRY), FRESH_FLOW)
  {
    var t := Dispatch(NO_RETRY, u, 0, 0);
    assert Reference(u.msgs, 0) == map[0 := PutMsg(2)];
    assert OnDispatch(NO_RETRY, PutMsg(1), PutRecord(false)) == PutRecord(true);
    assert t.reqs == map[0 := PutRecord(true)];
    assert t.at.net == multiset{0};
  }

  lemma PutRefused(s: State)
    requires Shows(s, 1, map[0 := PutMsg(2)], PutRecord(true), Traffic([], [], multiset{0}, [0], []),
                   Used0(NO_RETRY), FRESH_FLOW)
    ensures NotAnsweredTwice(NO_RETRY, s, DeliverStep(0, MISSED))
    ensures Shows(Next(NO_RETRY, s, DeliverStep(0, MISSED)), 1, map[0 := PutMsg(1)], PutRecord(true),
                  Traffic([], [], multiset{}, [0], []), Used0(NO_RETRY), FRESH_FLOW)
  {
    var c, q := NO_RETRY, PutRecord(true);
    var s1 := Arrived(s, 0);
    assert React(c, s1.msgs, 0, PutMsg(2), q, MISSED) == Ignore(q);
    hide React;
    var u := Apply(c, s1, 0, Ignore(q));
    assert u.reqs == map[0 := q];
    OneReferenceLess(u, 0);
    hide Unref;
    assert Next(c, s, DeliverStep(0, MISSED)) == Unref(u, 0);
  }

  lemma PutGivenUp(s: State)
    requires Shows(s, 1, map[0 := PutMsg(1)], PutRecord(true), Traffic([], [], multiset{}, [0], []),
                   Used0(NO_RETRY), FRESH_FLOW)
    ensures NotRepeated(NO_RETRY, s, TimeoutStep(0))
    ensures var t := Next(NO_RETRY, s, TimeoutStep(0));
      t.fault.NoFault? && t.msgs == map[] && t.reqs == map[] && FlowOf(t, 0) == Used0(NO_RETRY) && Lost(t, 0)
  {
  }

  lemma CleanExtends(c: Config, steps: seq<Step>, n: nat)
    requires n < |steps| && CleanRun(c, steps[..n]) && Clean(c, Run(c, steps[..n]), steps[n])
    ensures CleanRun(c, steps[..n + 1])
  {
    hide Clean;
    assert steps[..n + 1][..n] == steps[..n];
  }

  /** A Put without ACK that finds no entry leaves nothing behind but its credit, gone for good, in a clean run
      that conserves its credits: with one credit, node 0 can never send to node 1 again. */
  lemma UnmatchedPutLosesCredit()
    ensures CleanRun(NO_RETRY, LOSING_RUN)
    ensures var s := Run(NO_RETRY, LOSING_RUN);
      && s.fault.NoFault? && s.msgs == map[] && s.reqs == map[] && Conserved(NO_RETRY, s) && Lost(s, 0)
      && NodeFree(NO_RETRY, FlowOf(s, 0), ComputeRequest, 1) == 0 && FlowOf(s, 0).entries == MAX_E2E_ENTRIES - 1
  {
    var c, steps := NO_RETRY, LOSING_RUN;
    hide Next, AnswersAgain, RepliesOnce, Conserved;
    RunExtends(c, steps, 0);
    RunExtends(c, steps, 1);
    RunExtends(c, steps, 2);
    RunExtends(c, steps, 3);
    assert steps[..4] == steps && steps[..0] == [];
    PutIssued();
    hide Run, Shows;
    PutLeft(Run(c, steps[..1]));
    PutRefused(Run(c, steps[..2]));
    PutGivenUp(Run(c, steps[..3]));
    CleanExtends(c, steps, 0);
    CleanExtends(c, steps, 1);
    CleanExtends(c, steps, 2);
    CleanExtends(c, steps, 3);
    hide CleanRun;
    CreditConservation(c, steps);
  }

  // ---------------------------------------------------------------- a message that is gone when it is read again

  const E2E_OFF := Config(true, false, 0, 0, 0)

  const TAKEN_AT_ONCE: seq<Step> := [IssueStep(PUT), TransmitStep(REQUEST_PORT), DeliverStep(0, FOUND)]

  lemma PutIssuedOff()
    ensures Shows(Next(E2E_OFF, INIT, IssueStep(PUT)), 1, map[0 := PutMsg(1)], PutRecord(false),
                  Traffic([0], [], multiset{}, [], []), FRESH_FLOW, FRESH_FLOW)
  {
  }

  lemma PutLeftOff(s: State)
    requires Shows(s, 1, map[0 := PutMsg(1)], PutRecord(false), Traffic([0], [], multiset{}, [], []),
                   FRESH_FLOW, FRESH_FLOW)
    ensures Shows(Next(E2E_OFF, s, TransmitStep(REQUEST_PORT)), 1, map[0 := PutMsg(1)], PutRecord(true),
                  Traffic([], [], multiset{0}, [], []), FRESH_FLOW, FRESH_FLOW)
    ensures 0 in Next(E2E_OFF, s, TransmitStep(REQUEST_PORT)).sent
  {
    var t := Dispatch(E2E_OFF, Popped(s, REQUEST_PORT), 0, 0);
    assert OnDispatch(E2E_OFF, PutMsg(1), PutRecord(false)) == PutRecord(true);
    assert t.reqs == map[0 := PutRecord(true)];
    assert t.at.net == multiset{0};
    hide Dispatch;
    assert Next(E2E_OFF, s, TransmitStep(REQUEST_PORT)) == t;
  }

  lemma PutTaken(s: State)
    requires Shows(s, 1, map[0 := PutMsg(1)], PutRecord(true), Traffic([], [], multiset{0}, [], []),
                   FRESH_FLOW, FRESH_FLOW)
    ensures var t := Next(E2E_OFF, s, DeliverStep(0, FOUND));
      t.fault.NoFault? && t.msgs == map[] && t.reqs == map[] && t.sent == s.sent
  {
    var s1, q := Arrived(s, 0), PutRecord(true);
    var a := Reaction(false, None, PutEvent(Recorded(q, 0, FOUND)), None);
    assert React(E2E_OFF, s1.msgs, 0, PutMsg(1), q, FOUND) == a;
    hide React;
    var u := Apply(E2E_OFF, s1, 0, a);
    assert u == SetReq(s1, 0, a.req);
    assert u.msgs - {0} == map[] && u.reqs - {0} == map[];
    assert a.req.msgRefs == 1;
    hide PutEvent, Recorded;
  }

  /** With E2E off, a Put can be handled and deleted while its initiator still waits to read it: the program then
      reads freed memory. `NicLaunch.ReadableUntilTimeout` excludes this with E2E on. */
  lemma ReadAfterFree()
    ensures var s := Run(E2E_OFF, TAKEN_AT_ONCE); s.fault.NoFault? && 0 in s.sent && !Live(s, 0)
  {
    var c, steps := E2E_OFF, TAKEN_AT_ONCE;
    hide Next;
    RunExtends(c, steps, 0);
    RunExtends(c, steps, 1);
    RunExtends(c, steps, 2);
    assert steps[..3] == steps && steps[..0] == [];
    PutIssuedOff();
    hide Run, Shows;
    PutLeftOff(Run(c, steps[..1]));
    PutTaken(Run(c, steps[..2]));
  }
}
