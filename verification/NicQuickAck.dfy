/** The quick-ACK mode against the exchange it abbreviates: in quick mode the target finishes the request at
    once, otherwise a Portals ACK and an E2E ACK travel first. Both are chains of the real handlers here. */
module NicQuickAck {
  import opened Wire
  import opened FlowControl
  import opened Nic
  import opened NicTypes

  /** What an exchange leaves behind: the record of the request, and the counters of all nodes. */
  datatype Books = Books(req: Req, flows: map<Nid, Flow>)

  /** The counters after the credit a handler gives back. */
  function Settled(c: Config, flows: map<Nid, Flow>, a: Reaction): Option<map<Nid, Flow>> {
    if a.Abort? then None
    else if a.gives.None? then Some(flows)
    else
      var g := a.gives.value;
      match ReleaseEntry(c, FlowAt(flows, g.node), g.channel)
      case CounterPanic => None
      case Released(f) => Some(flows[g.node := f])
  }

  /** The counters after a message leaves, if its credit is available. */
  function Sent(c: Config, flows: map<Nid, Flow>, msg: Msg, q: Req): Option<map<Nid, Flow>> {
    if !NeedsCredit(c, msg) then Some(flows)
    else
      match CheckFlowctrl(c, FlowAt(flows, msg.initiator), ChargedChannel(msg, q))
      case Granted(f) => if f.entries > 0 then Some(flows[msg.initiator := f.(entries := f.entries - 1)]) else None
      case _ => None
  }

  /** The handler of `msg` and the messages it makes the two sides exchange, until nothing more is sent;
      `hops` is more than any exchange needs. */
  function Exchange(c: Config, msgs: map<MsgId, Msg>, m: MsgId, msg: Msg, x: Match, b: Books, hops: nat): Option<Books>
    decreases hops
  {
    var a := React(c, msgs, m, msg, b.req, x);
    var flows := Settled(c, b.flows, a);
    if flows.None? then None
    else if a.sends.None? then Some(Books(a.req, flows.value))
    else if hops == 0 then None
    else
      var back := ReplyTo(m + 1, m, msg, a.sends.value);
      var charged := Sent(c, flows.value, back, a.req);
      if charged.None? then None
      else Exchange(c, msgs[m + 1 := back], m + 1, back, x, Books(a.req, charged.value), hops - 1)
  }

  /** The target's whole answer to request message `m`. */
  function Outcome(c: Config, quick: bool, m: MsgId, msg: Msg, x: Match, b: Books): Option<Books> {
    Exchange(c.(quickAcks := quick), map[m := msg], m, msg, x, b, 3)
  }

  /** A first try of a Put or Atomic, in flight, with the credit of its reply available. */
  ghost predicate Ready(c: Config, msg: Msg, q: Req, x: Match, flows: map<Nid, Flow>) {
    && !c.e2eOff && x.Matched? && q.phase.Created?
    && (if q.command.typ.PutReq? then msg.typ.PtlPut? else q.command.typ.AtomicReq? && msg.typ.PtlAtomic?)
    && msg.retry == 0 && msg.service == q.command.service && Travels(msg, q.command.src, q.command.dst)
    && Releasable(c, FlowAt(flows, q.command.src), RequestChannel(q, q.command.dst))
    && var back := Channel(ResponseVn(q.command.service), q.command.src, q.command.targetPid, q.command.srcPid);
       && CheckFlowctrl(c, FlowAt(flows, q.command.dst), back).Granted? && FlowAt(flows, q.command.dst).entries > 0
       && NodeFree(c, FlowAt(flows, q.command.dst), back.vn, back.peer) <= c.maxToTarget
       && ProcessFree(c, FlowAt(flows, q.command.dst), back) <= c.maxToProcess
  }

  /** The entry and the request call for a Portals ACK. */
  predicate WantsAck(q: Req, x: Match) {
    x.Matched? && !x.ackDisable && !q.command.ackReq.NoAckReq?
  }

  // ---------------------------------------------------------------- the two outcomes

  function QuickRecord(m: MsgId, q: Req, x: Match): Req
    requires x.Matched?
  {
    IssueAck(MaybeIssueSend(PutEvent(Recorded(q, m, x)).(phase := Finished)), NiOk)
  }

  function RequestGiven(c: Config, flows: map<Nid, Flow>, q: Req): map<Nid, Flow>
    requires Releasable(c, FlowAt(flows, q.command.src), RequestChannel(q, q.command.dst))
  {
    flows[q.command.src := ReleaseEntry(c, FlowAt(flows, q.command.src), RequestChannel(q, q.command.dst)).flow]
  }

  lemma ConfigBlind(c: Config, quick: bool, f: Flow, ch: Channel)
    ensures var d := c.(quickAcks := quick);
      && CheckFlowctrl(d, f, ch) == CheckFlowctrl(c, f, ch) && ReleaseEntry(d, f, ch) == ReleaseEntry(c, f, ch)
      && (Releasable(d, f, ch) <==> Releasable(c, f, ch))
  {
  }

  lemma PutKeeps(q: Req, m: MsgId, x: Match)
    requires x.Matched?
    ensures PutEvent(Recorded(q, m, x)).command == q.command && PutEvent(Recorded(q, m, x)).phase.Received?
  {
  }

  lemma QuickOutcome(c: Config, m: MsgId, msg: Msg, q: Req, x: Match, flows: map<Nid, Flow>)
    requires Ready(c, msg, q, x, flows)
    ensures Outcome(c, true, m, msg, x, Books(q, flows)) == Some(Books(QuickRecord(m, q, x), RequestGiven(c, flows, q)))
  {
    ConfigBlind(c, true, FlowAt(flows, q.command.src), RequestChannel(q, q.command.dst));
    GivenEntry(c, flows, q);
    hide CheckFlowctrl, ReleaseEntry, Releasable, Recorded, PutEvent, MaybeIssueSend, IssueAck;
    PutKeeps(q, m, x);
    var a := React(c.(quickAcks := true), map[m := msg], m, msg, q, x);
    assert a.gives == Some(Release(q.command.src, RequestChannel(q, q.command.dst), ChargeId(msg.req, msg.req)));
  }

  lemma GivenEntry(c: Config, flows: map<Nid, Flow>, q: Req)
    requires Releasable(c, FlowAt(flows, q.command.src), RequestChannel(q, q.command.dst))
    ensures ReleaseEntry(c, FlowAt(flows, q.command.src), RequestChannel(q, q.command.dst)).Released?
  {
  }

  /** Without Portals ACK: one E2E ACK comes back and finishes the request. */
  lemma DirectOutcome(c: Config, m: MsgId, msg: Msg, q: Req, x: Match, flows: map<Nid, Flow>)
    requires Ready(c, msg, q, x, flows) && !WantsAck(q, x)
    ensures Outcome(c, false, m, msg, x, Books(q, flows)) ==
            Some(Books(Concluded(PutEvent(Recorded(q, m, x)).(phase := Finished)), RequestGiven(c, flows, q)))
  {
    var d := c.(quickAcks := false);
    ConfigBlind(c, false, FlowAt(flows, q.command.src), RequestChannel(q, q.command.dst));
    GivenEntry(c, flows, q);
    PutKeeps(q, m, x);
    hide CheckFlowctrl, ReleaseEntry, Releasable, Recorded, PutEvent, MaybeIssueSend, IssueAck, Concluded;
    var q1 := PutEvent(Recorded(q, m, x));
    var reply := Reply(E2eAck, 0, NiOk, ACK_SIZE);
    assert React(d, map[m := msg], m, msg, q, x) == Reaction(x.list.Overflow?, None, q1, Some(reply));
    var ack := ReplyTo(m + 1, m, msg, reply);
    var a := React(d, map[m := msg][m + 1 := ack], m + 1, ack, q1, x);
    var back := Release(q.command.src, RequestChannel(q, q.command.dst), ChargeName(msg));
    assert a == Reaction(false, Some(back), Concluded(q1.(phase := Finished)), None);
    hide React;
    assert Sent(d, flows, ack, q1) == Some(flows);
    assert Exchange(d, map[m := msg][m + 1 := ack], m + 1, ack, x, Books(q1, flows), 2) ==
           Some(Books(a.req, RequestGiven(c, flows, q)));
  }

  /** The counters after a Portals ACK is charged at the target, gives back the request's credit, and gets
      its own credit back. */
  function AckGiven(c: Config, flows: map<Nid, Flow>, q: Req): Option<map<Nid, Flow>> {
    var back := Channel(ResponseVn(q.command.service), q.command.src, q.command.targetPid, q.command.srcPid);
    match CheckFlowctrl(c, FlowAt(flows, q.command.dst), back)
    case NegativeCredit => None
    case Refused(_) => None
    case Granted(f) =>
      var flows1 := flows[q.command.dst := f.(entries := f.entries - 1)];
      match ReleaseEntry(c, FlowAt(flows1, q.command.src), RequestChannel(q, q.command.dst))
      case CounterPanic => None
      case Released(g) =>
        var flows2 := flows1[q.command.src := g];
        match ReleaseEntry(c, FlowAt(flows2, q.command.dst), back)
        case CounterPanic => None
        case Released(h) => Some(flows2[q.command.dst := h])
  }

  function AnsweredRecord(m: MsgId, q: Req, x: Match): Req
    requires x.Matched?
  {
    IssueAck(MaybeIssueSend(PutEvent(Recorded(q, m, x)).(phase := Answered)), NiOk)
  }

  lemma FinishedLater(m: MsgId, q: Req, x: Match)
    requires WantsAck(q, x) && PutLike(q.command.typ)
    ensures Concluded(AnsweredRecord(m, q, x).(phase := Finished)) == QuickRecord(m, q, x)
    ensures AnsweredRecord(m, q, x).command == q.command && AnsweredRecord(m, q, x).phase.Answered?
  {
  }

  const PORTALS_ACK := Reply(PtlAck, 0, NiOk, ACK_SIZE)
  const CONFIRMATION := Reply(E2eAck, 0, NiOk, ACK_SIZE)

  lemma RequestHop(c: Config, msgs: map<MsgId, Msg>, m: MsgId, msg: Msg, q: Req, x: Match, flows: map<Nid, Flow>)
    requires Ready(c, msg, q, x, flows) && WantsAck(q, x) && !c.quickAcks
    ensures React(c, msgs, m, msg, q, x) ==
            Reaction(x.list.Overflow?, None, PutEvent(Recorded(q, m, x)), Some(PORTALS_ACK))
  {
    hide Recorded, PutEvent, CheckFlowctrl, ReleaseEntry, Releasable;
  }

  lemma AckHop(c: Config, msgs: map<MsgId, Msg>, m: MsgId, msg: Msg, q: Req, x: Match, flows: map<Nid, Flow>)
    requires Ready(c, msg, q, x, flows)
    ensures var ack := ReplyTo(m + 1, m, msg, PORTALS_ACK);
      React(c, msgs, m + 1, ack, PutEvent(Recorded(q, m, x)), x) ==
        Reaction(false, Some(Release(q.command.src, RequestChannel(q, q.command.dst), ChargeId(msg.req, msg.req))),
                 AnsweredRecord(m, q, x), Some(CONFIRMATION))
  {
    PutKeeps(q, m, x);
    hide Recorded, PutEvent, CheckFlowctrl, ReleaseEntry, Releasable, MaybeIssueSend, IssueAck;
  }

  lemma ConfirmationHop(c: Config, msgs: map<MsgId, Msg>, m: MsgId, msg: Msg, q: Req, x: Match, flows: map<Nid, Flow>)
    requires Ready(c, msg, q, x, flows) && WantsAck(q, x)
    requires m + 1 in msgs && msgs[m + 1] == ReplyTo(m + 1, m, msg, PORTALS_ACK)
    ensures var last := ReplyTo(m + 2, m + 1, msgs[m + 1], CONFIRMATION);
      var back := Channel(ResponseVn(q.command.service), q.command.src, q.command.targetPid, q.command.srcPid);
      React(c, msgs, m + 2, last, AnsweredRecord(m, q, x), x) ==
        Reaction(false, Some(Release(q.command.dst, back, ChargeId(msg.req, m + 1))), QuickRecord(m, q, x), None)
  {
    FinishedLater(m, q, x);
    hide AnsweredRecord, QuickRecord, CheckFlowctrl, ReleaseEntry, Releasable, Concluded;
  }

  /** One handler of an exchange; what it sends back, the next one handles. */
  lemma ExchangeHop(c: Config, msgs: map<MsgId, Msg>, m: MsgId, msg: Msg, x: Match, b: Books, hops: nat)
    requires hops > 0
    ensures var a := React(c, msgs, m, msg, b.req, x);
      var flows := Settled(c, b.flows, a);
      Exchange(c, msgs, m, msg, x, b, hops) ==
        if flows.None? then None
        else if a.sends.None? then Some(Books(a.req, flows.value))
        else
          var back := ReplyTo(m + 1, m, msg, a.sends.value);
          var charged := Sent(c, flows.value, back, a.req);
          if charged.None? then None
          else Exchange(c, msgs[m + 1 := back], m + 1, back, x, Books(a.req, charged.value), hops - 1)
  {
    hide React, Settled, Sent, ReplyTo;
  }

  /** The credits of the three hops: the ACK is charged, the request's credit returns, the ACK's returns. */
  lemma AckedCredits(c: Config, flows: map<Nid, Flow>, q: Req, ack: Msg, q1: Req, a2: Reaction, a3: Reaction)
    requires var back := Channel(ResponseVn(q.command.service), q.command.src, q.command.targetPid, q.command.srcPid);
      && NeedsCredit(c, ack) && ack.initiator == q.command.dst && ChargedChannel(ack, q1) == back
      && CheckFlowctrl(c, FlowAt(flows, q.command.dst), back).Granted?
      && CheckFlowctrl(c, FlowAt(flows, q.command.dst), back).flow.entries > 0
      && a2.Reaction? && a2.gives.Some? && a2.gives.value.node == q.command.src
      && a2.gives.value.channel == RequestChannel(q, q.command.dst)
      && a3.Reaction? && a3.gives.Some? && a3.gives.value.node == q.command.dst && a3.gives.value.channel == back
    ensures var flows1 := Sent(c, flows, ack, q1);
      && flows1.Some?
      && var flows2 := Settled(c, flows1.value, a2);
         AckGiven(c, flows, q) == if flows2.None? then None else Settled(c, flows2.value, a3)
  {
    hide CheckFlowctrl, ReleaseEntry, ChargedChannel, RequestChannel;
  }

  /** With a Portals ACK: the ACK gives back the request's credit, its own E2E ACK the ACK's. */
  lemma AckedOutcome(c: Config, m: MsgId, msg: Msg, q: Req, x: Match, flows: map<Nid, Flow>)
    requires Ready(c, msg, q, x, flows) && WantsAck(q, x) && !c.quickAcks
    ensures Exchange(c, map[m := msg], m, msg, x, Books(q, flows), 3) ==
      match AckGiven(c, flows, q) case None => None case Some(after) => Some(Books(QuickRecord(m, q, x), after))
  {
    var q1, q2 := PutEvent(Recorded(q, m, x)), AnsweredRecord(m, q, x);
    var ack := ReplyTo(m + 1, m, msg, PORTALS_ACK);
    var last := ReplyTo(m + 2, m + 1, ack, CONFIRMATION);
    var msgs0 := map[m := msg];
    var msgs1 := msgs0[m + 1 := ack];
    var msgs2 := msgs1[m + 2 := last];
    RequestHop(c, msgs0, m, msg, q, x, flows);
    AckHop(c, msgs1, m, msg, q, x, flows);
    ConfirmationHop(c, msgs2, m, msg, q, x, flows);
    PutKeeps(q, m, x);
    var back := Channel(ResponseVn(q.command.service), q.command.src, q.command.targetPid, q.command.srcPid);
    assert ChargedChannel(ack, q1) == back;
    CheckMovesCredits(c, FlowAt(flows, q.command.dst), back);
    var a2, a3 := React(c, msgs1, m + 1, ack, q1, x), React(c, msgs2, m + 2, last, q2, x);
    AckedCredits(c, flows, q, ack, q1, a2, a3);
    assert Settled(c, flows, React(c, msgs0, m, msg, q, x)) == Some(flows);
    var flows1 := Sent(c, flows, ack, q1).value;
    var flows2 := Settled(c, flows1, a2);
    ExchangeHop(c, msgs0, m, msg, x, Books(q, flows), 3);
    ExchangeHop(c, msgs1, m + 1, ack, x, Books(q1, flows1), 2);
    if flows2.Some? {
      assert Sent(c, flows2.value, last, q2) == flows2;
      ExchangeHop(c, msgs2, m + 2, last, x, Books(q2, flows2.value), 1);
    }
    hide React, AnsweredRecord, QuickRecord, Recorded, PutEvent, CheckFlowctrl, ReleaseEntry, Releasable,
         ChargedChannel, Ready, WantsAck, IssueAck, MaybeIssueSend, Exchange, Sent, Settled, AckGiven;
  }

  // ---------------------------------------------------------------- credits

  ghost predicate SameCounters(c: Config, f: Flow, g: Flow) {
    && g.entries == f.entries
    && (c.maxToTarget > 0 ==> forall vn, peer :: NodeFree(c, g, vn, peer) == NodeFree(c, f, vn, peer))
    && (c.maxToProcess > 0 ==> forall ch :: ProcessFree(c, g, ch) == ProcessFree(c, f, ch))
  }

  /** Charging and giving back `back` around a give-back on another virtual network changes nothing else. */
  lemma ChargeAround(c: Config, f: Flow, ch: Channel, back: Channel)
    requires ch.vn != back.vn && Releasable(c, f, ch) && CheckFlowctrl(c, f, back).Granted?
    requires NodeFree(c, f, back.vn, back.peer) <= c.maxToTarget && ProcessFree(c, f, back) <= c.maxToProcess
    ensures var g := CheckFlowctrl(c, f, back).flow.(entries := f.entries - 1);
      && Releasable(c, g, ch)
      && Releasable(c, ReleaseEntry(c, g, ch).flow, back)
      && SameCounters(c, ReleaseEntry(c, f, ch).flow, ReleaseEntry(c, ReleaseEntry(c, g, ch).flow, back).flow)
  {
  }

  lemma ChargeAndBack(c: Config, f: Flow, back: Channel)
    requires CheckFlowctrl(c, f, back).Granted?
    requires NodeFree(c, f, back.vn, back.peer) <= c.maxToTarget && ProcessFree(c, f, back) <= c.maxToProcess
    ensures var g := CheckFlowctrl(c, f, back).flow.(entries := f.entries - 1);
      Releasable(c, g, back) && SameCounters(c, f, ReleaseEntry(c, g, back).flow)
  {
    ReleaseUndoesCheck(c, f, back);
  }

  lemma AckCostsNothing(c: Config, msg: Msg, q: Req, x: Match, flows: map<Nid, Flow>)
    requires Ready(c, msg, q, x, flows)
    ensures AckGiven(c, flows, q).Some?
    ensures forall n :: SameCounters(c, FlowAt(RequestGiven(c, flows, q), n), FlowAt(AckGiven(c, flows, q).value, n))
  {
    hide CheckFlowctrl, ReleaseEntry, Releasable, SameCounters, NodeFree, ProcessFree;
    var src, dst, ch := q.command.src, q.command.dst, RequestChannel(q, q.command.dst);
    var back := Channel(ResponseVn(q.command.service), src, q.command.targetPid, q.command.srcPid);
    CheckMovesCredits(c, FlowAt(flows, dst), back);
    if src == dst { ChargeAround(c, FlowAt(flows, src), ch, back); }
    else { ChargeAndBack(c, FlowAt(flows, dst), back); }
    Released(c);
    forall n ensures SameCounters(c, FlowAt(RequestGiven(c, flows, q), n), FlowAt(AckGiven(c, flows, q).value, n)) {
      SameAsItself(c, FlowAt(RequestGiven(c, flows, q), n));
    }
  }

  lemma Released(c: Config)
    ensures forall f, ch :: Releasable(c, f, ch) ==> ReleaseEntry(c, f, ch).Released?
  {
  }

  lemma SameAsItself(c: Config, f: Flow)
    ensures SameCounters(c, f, f)
  {
  }

  // ---------------------------------------------------------------- theorems

  lemma ReadyBlind(c: Config, msg: Msg, q: Req, x: Match, flows: map<Nid, Flow>)
    requires Ready(c, msg, q, x, flows)
    ensures Ready(c.(quickAcks := false), msg, q, x, flows)
    ensures AckGiven(c.(quickAcks := false), flows, q) == AckGiven(c, flows, q)
  {
    forall f: Flow, ch: Channel
      ensures CheckFlowctrl(c.(quickAcks := false), f, ch) == CheckFlowctrl(c, f, ch)
      ensures ReleaseEntry(c.(quickAcks := false), f, ch) == ReleaseEntry(c, f, ch)
      ensures Releasable(c.(quickAcks := false), f, ch) <==> Releasable(c, f, ch)
    {
      ConfigBlind(c, false, f, ch);
    }
    hide CheckFlowctrl, ReleaseEntry, Releasable;
  }

  /** Quick-ACK refinement: a matched Put or Atomic that gets a Portals ACK ends with the same record in both
      modes, FINISHED and with the same events in the same order, and every counter of every node agrees. */
  lemma QuickAckRefines(c: Config, m: MsgId, msg: Msg, q: Req, x: Match, flows: map<Nid, Flow>)
    requires Ready(c, msg, q, x, flows) && WantsAck(q, x)
    ensures var b := Books(q, flows);
      var quick, full := Outcome(c, true, m, msg, x, b), Outcome(c, false, m, msg, x, b);
      && quick.Some? && full.Some? && quick.value.req == full.value.req && quick.value.req.phase.Finished?
      && forall n :: SameCounters(c, FlowAt(quick.value.flows, n), FlowAt(full.value.flows, n))
  {
    hide Exchange, AckGiven, RequestGiven, SameCounters, Ready, ReleaseEntry, Releasable, CheckFlowctrl;
    QuickOutcome(c, m, msg, q, x, flows);
    ReadyBlind(c, msg, q, x, flows);
    AckedOutcome(c.(quickAcks := false), m, msg, q, x, flows);
    AckCostsNothing(c, msg, q, x, flows);
    hide Recorded, PutEvent;
  }

  /** Which events quick mode raises although no Portals ACK was due. */
  predicate QuickIsSilent(q: Req) {
    && !q.command.ctAck
    && (q.command.ackReq.NoAckReq? ||
          (!q.command.ackReq.FullAckReq? && (q.sendIssued || (!q.command.ctSend && !q.command.sendEvents))))
  }

  lemma ExtraEvents(m: MsgId, q: Req, x: Match)
    requires !WantsAck(q, x) && x.Matched? && PutLike(q.command.typ)
    ensures QuickRecord(m, q, x).initiatorLog == Concluded(PutEvent(Recorded(q, m, x)).(phase := Finished)).initiatorLog
            <==> QuickIsSilent(q)
  {
    var quick := QuickRecord(m, q, x).initiatorLog;
    var full := Concluded(PutEvent(Recorded(q, m, x)).(phase := Finished)).initiatorLog;
    assert QuickIsSilent(q) ==> |quick| == |full|;
    assert !QuickIsSilent(q) ==> |quick| > |full|;
  }

  /** When the modes agree: the initiator sees the same events exactly if the request gets a Portals ACK, or
      quick mode has no event to raise that the E2E ACK would not raise. The credits agree in any case. */
  lemma QuickAckAgrees(c: Config, m: MsgId, msg: Msg, q: Req, x: Match, flows: map<Nid, Flow>)
    requires Ready(c, msg, q, x, flows)
    ensures var b := Books(q, flows);
      var quick, full := Outcome(c, true, m, msg, x, b), Outcome(c, false, m, msg, x, b);
      && quick.Some? && full.Some?
      && (quick.value.req.initiatorLog == full.value.req.initiatorLog <==> WantsAck(q, x) || QuickIsSilent(q))
      && quick.value.req.targetLog == full.value.req.targetLog
      && forall n :: SameCounters(c, FlowAt(quick.value.flows, n), FlowAt(full.value.flows, n))
  {
    if WantsAck(q, x) {
      hide Exchange, Ready;
      QuickAckRefines(c, m, msg, q, x, flows);
    } else {
      assert PutLike(q.command.typ);
      hide Exchange, RequestGiven, Ready, ReleaseEntry, Releasable, CheckFlowctrl;
      QuickOutcome(c, m, msg, q, x, flows);
      DirectOutcome(c, m, msg, q, x, flows);
      ExtraEvents(m, q, x);
      SameTarget(m, q, x);
      hide QuickRecord, Recorded, PutEvent, Concluded;
    }
  }

  lemma SameTarget(m: MsgId, q: Req, x: Match)
    requires x.Matched? && PutLike(q.command.typ)
    ensures QuickRecord(m, q, x).targetLog == Concluded(PutEvent(Recorded(q, m, x)).(phase := Finished)).targetLog
  {
    hide Recorded, PutEvent;
    PutKeeps(q, m, x);
  }
}
