/** At-most-once effect: whatever is retransmitted or delivered twice, a request touches the target once
    and raises each of its events at most once. */
module NicOnce {
  import opened Wire
  import opened Queues
  import opened FlowControl
  import opened Nic
  import opened NicRefs
  import opened NicRefRuns
  import opened NicTypes

  // ---------------------------------------------------------------- counting events

  datatype Kind = SendEv | SendCt | AckEv | AckCt | ReplyEv | ReplyCt

  function KindOf(e: InitiatorEvent): Kind {
    match e
    case SendCount => SendCt
    case SendEvent => SendEv
    case AckCount => AckCt
    case AckEvent(_, _, _) => AckEv
    case ReplyCount => ReplyCt
    case ReplyEvent(_, _, _) => ReplyEv
  }

  function Kinds(log: seq<InitiatorEvent>): seq<Kind> {
    seq(|log|, i requires 0 <= i < |log| => KindOf(log[i]))
  }

  function Tally(log: seq<InitiatorEvent>, k: Kind): nat {
    multiset(Kinds(log))[k]
  }

  lemma TallyAppend(log: seq<InitiatorEvent>, more: seq<InitiatorEvent>, k: Kind)
    ensures Tally(log + more, k) == Tally(log, k) + Tally(more, k)
  {
    assert Kinds(log + more) == Kinds(log) + Kinds(more);
  }

  lemma TallyOne(e: InitiatorEvent, k: Kind)
    ensures Tally([e], k) == if KindOf(e) == k then 1 else 0
  {
    assert Kinds([e]) == [KindOf(e)];
  }

  function TargetTally(log: seq<TargetEvent>, e: TargetEvent): nat {
    multiset(log)[e]
  }

  // ---------------------------------------------------------------- the invariant of one request

  function Bit(b: bool): nat {
    if b then 1 else 0
  }

  /** SEND exactly if it was issued; ACK only for Puts and Atomics, REPLY only for the others, and neither
      before the request is answered. */
  ghost predicate InitiatorOnce(q: Req) {
    && Tally(q.initiatorLog, SendEv) == Bit(q.sendIssued && q.command.sendEvents)
    && Tally(q.initiatorLog, SendCt) == Bit(q.sendIssued && q.command.ctSend)
    && (forall k :: k == AckEv || k == AckCt ==>
          Tally(q.initiatorLog, k) <= Bit(PutLike(q.command.typ) && Rank(q.phase) >= Rank(Answered)))
    && (forall k :: k == ReplyEv || k == ReplyCt ==>
          Tally(q.initiatorLog, k) <= Bit(!PutLike(q.command.typ) && Rank(q.phase) >= Rank(Answered)))
  }

  /** Everything a match calls for happened once, and nothing without a match. */
  ghost predicate TargetOnce(q: Req) {
    && (q.phase.Created? ==> q.matched.None?) && (q.phase.Received? ==> q.matched.Some?)
    && (q.matched.None? ==> q.targetLog == [])
    && (q.matched.Some? ==> q.matched.value.Matched?)
    && (q.header.Some? ==> q.matched.Some?)
    && (q.matched.Some? ==>
          && (q.header.Some? <==> q.matched.value.list.Overflow?)
          && TargetTally(q.targetLog, Effect) == 1
          && TargetTally(q.targetLog, TargetCount) == Bit(q.matched.value.ctComm))
    && TargetTally(q.targetLog, HeaderPush) == Bit(q.header.Some?)
    && TargetTally(q.targetLog, DirectEvent) <=
       Bit(RaisesDirectEvent(q.matched) && (PutLike(q.command.typ) || q.getIssued))
    && (PutLike(q.command.typ) ==> TargetTally(q.targetLog, DirectEvent) == Bit(RaisesDirectEvent(q.matched)))
    && TargetTally(q.targetLog, OverflowEvent) <= Bit(q.header.Some?)
  }

  ghost predicate OnceReq(q: Req) {
    InitiatorOnce(q) && TargetOnce(q)
  }

  lemma SendsOnce(q: Req)
    requires InitiatorOnce(q)
    ensures InitiatorOnce(MaybeIssueSend(q))
  {
    if !q.sendIssued {
      forall k
        ensures Tally(MaybeIssueSend(q).initiatorLog, k) ==
                Tally(q.initiatorLog, k) + Bit(q.command.ctSend && k == SendCt)
                + Bit(q.command.sendEvents && k == SendEv)
      {
        TallyTwo(q.initiatorLog, if q.command.ctSend then [SendCount] else [],
                 if q.command.sendEvents then [SendEvent] else [], k);
      }
    }
  }

  /** A log that grows by at most one event of each of two kinds. */
  lemma TallyTwo(log: seq<InitiatorEvent>, a: seq<InitiatorEvent>, b: seq<InitiatorEvent>, k: Kind)
    requires |a| <= 1 && |b| <= 1
    ensures Tally(log + a + b, k) ==
            Tally(log, k) + Bit(|a| == 1 && KindOf(a[0]) == k) + Bit(|b| == 1 && KindOf(b[0]) == k)
  {
    TallyAppend(log + a, b, k);
    TallyAppend(log, a, k);
    if |a| == 1 { assert a == [a[0]]; TallyOne(a[0], k); }
    if |b| == 1 { assert b == [b[0]]; TallyOne(b[0], k); }
  }

  /** Raising ACK is harmless on a Put just moved past RECEIVED. */
  lemma AcksOnce(q: Req, fail: NiFail)
    requires InitiatorOnce(q.(phase := Received)) && Rank(q.phase) >= Rank(Answered) && PutLike(q.command.typ)
    ensures InitiatorOnce(IssueAck(q, fail))
  {
    forall k
      ensures Tally(IssueAck(q, fail).initiatorLog, k) ==
              Tally(q.initiatorLog, k) + Bit(q.command.ctAck && k == AckCt)
              + Bit(q.command.ackReq.FullAckReq? && k == AckEv)
    {
      TallyTwo(q.initiatorLog, if q.command.ctAck then [AckCount] else [],
               if q.command.ackReq.FullAckReq? then [AckEvent(fail, ReportedLength(q), ReportedOffset(q))] else [], k);
    }
  }

  /** So is raising REPLY on a Get. */
  lemma RepliesOnce(q: Req, fail: NiFail)
    requires InitiatorOnce(q.(phase := Received)) && Rank(q.phase) >= Rank(Answered) && !PutLike(q.command.typ)
    ensures InitiatorOnce(IssueReply(q, fail))
  {
    forall k
      ensures Tally(IssueReply(q, fail).initiatorLog, k) ==
              Tally(q.initiatorLog, k) + Bit(q.command.ctReply && k == ReplyCt) + Bit(k == ReplyEv)
    {
      TallyTwo(q.initiatorLog, if q.command.ctReply then [ReplyCount] else [],
               [ReplyEvent(fail, ReportedLength(q), ReportedOffset(q))], k);
    }
  }

  lemma TargetTallies(a: seq<TargetEvent>, b: seq<TargetEvent>, e: TargetEvent)
    ensures TargetTally(a + b, e) == TargetTally(a, e) + TargetTally(b, e)
    ensures TargetTally([], e) == 0
    ensures forall f :: TargetTally([f], e) == Bit(f == e)
  {
  }

  /** The log of a request that is matched for the first time. */
  lemma RecordedLog(q: Req, m: MsgId, x: Match, e: TargetEvent)
    requires q.targetLog == [] && x.Matched?
    ensures TargetTally(Recorded(q, m, x).targetLog, e) ==
            Bit(x.list.Overflow? && e == HeaderPush) + Bit(e == Effect) + Bit(x.ctComm && e == TargetCount)
    ensures TargetTally(PutEvent(Recorded(q, m, x)).targetLog, e) ==
            TargetTally(Recorded(q, m, x).targetLog, e) + Bit(RaisesDirectEvent(Some(x)) && e == DirectEvent)
  {
    hide TargetTally;
    var push := if x.list.Overflow? then [HeaderPush] else [];
    var count := if x.ctComm then [TargetCount] else [];
    TargetTallies([], push, e);
    TargetTallies([] + push, [Effect], e);
    TargetTallies([] + push + [Effect], count, e);
    TargetTallies(Recorded(q, m, x).targetLog, [DirectEvent], e);
    assert Recorded(q, m, x).targetLog == [] + push + [Effect] + count;
  }

  lemma RecordsOnce(q: Req, m: MsgId, x: Match)
    requires TargetOnce(q) && q.phase.Created? && x.Matched?
    ensures !PutLike(q.command.typ) ==> TargetOnce(Recorded(q, m, x))
    ensures TargetTally(Recorded(q, m, x).targetLog, OverflowEvent) == 0
    ensures PutLike(q.command.typ) ==> TargetOnce(PutEvent(Recorded(q, m, x)))
    ensures TargetTally(PutEvent(Recorded(q, m, x)).targetLog, OverflowEvent) == 0
  {
    hide TargetTally;
    RecordedLog(q, m, x, Effect);
    RecordedLog(q, m, x, TargetCount);
    RecordedLog(q, m, x, HeaderPush);
    RecordedLog(q, m, x, DirectEvent);
    RecordedLog(q, m, x, OverflowEvent);
  }

  lemma GetsOnce(q: Req)
    requires TargetOnce(q) && !PutLike(q.command.typ)
    ensures TargetOnce(MaybeIssueGet(q))
    ensures TargetTally(MaybeIssueGet(q).targetLog, OverflowEvent) == TargetTally(q.targetLog, OverflowEvent)
  {
  }

  // ---------------------------------------------------------------- reactions

  /** A reaction keeps the request's invariant, never moves it backwards, and keeps a header only when it
      records it; otherwise headers and their events stay as they are. */
  ghost predicate ReactsOnce(q: Req, m: MsgId, a: Reaction) {
    a.Reaction? ==>
      && OnceReq(a.req) && Rank(a.req.phase) >= Rank(q.phase) && a.req.command == q.command
      && (a.keeps ==> q.phase.Created? && a.req.header == Some(m) && TargetTally(a.req.targetLog, OverflowEvent) == 0)
      && (!a.keeps ==>
            && (a.req.header == q.header || q.phase.Created?)
            && TargetTally(a.req.targetLog, OverflowEvent) == TargetTally(q.targetLog, OverflowEvent))
  }

  /** The phase does not matter to the target half of a request that is past CREATED. */
  lemma FinishOnce(q: Req, fail: NiFail, p: Phase)
    requires InitiatorOnce(q.(phase := Received)) && TargetOnce(q.(phase := p)) && Rank(p) >= Rank(Answered)
    ensures PutLike(q.command.typ) ==> OnceReq(IssueAck(MaybeIssueSend(q.(phase := p)), fail))
    ensures !PutLike(q.command.typ) ==> OnceReq(IssueReply(q.(phase := p), fail))
  {
    hide Tally, TargetTally;
    assert q.(phase := p).(phase := Received) == q.(phase := Received);
    SendsOnce(q.(phase := Received));
    assert MaybeIssueSend(q.(phase := p)).(phase := Received) == MaybeIssueSend(q.(phase := Received));
    if PutLike(q.command.typ) { AcksOnce(MaybeIssueSend(q.(phase := p)), fail); }
    else { RepliesOnce(q.(phase := p), fail); }
  }

  lemma SendAckOnce(c: Config, keeps: bool, m: MsgId, msg: Msg, q: Req, q1: Req, typ: MsgType, fail: NiFail)
    requires OnceReq(q1) && Rank(q1.phase) <= Rank(Received) && Rank(q.phase) <= Rank(q1.phase)
    requires q1.command == q.command
    requires PutLike(q.command.typ)
    requires keeps ==> q.phase.Created? && q1.header == Some(m) && TargetTally(q1.targetLog, OverflowEvent) == 0
    requires !keeps ==> (q1.header == q.header || q.phase.Created?)
    requires !keeps ==> TargetTally(q1.targetLog, OverflowEvent) == TargetTally(q.targetLog, OverflowEvent)
    ensures ReactsOnce(q, m, SendAck(c, keeps, msg, q1, typ, fail))
  {
    FinishOnce(q1, fail, Finished);
  }

  lemma PutReactsOnce(c: Config, m: MsgId, msg: Msg, q: Req, x: Match)
    requires OnceReq(q) && PutLike(q.command.typ)
    ensures ReactsOnce(q, m, HandlePut(c, m, msg, q, x)) && ReactsOnce(q, m, HandleAtomic(c, m, msg, q, x))
  {
    hide SendAck, ReactsOnce, TargetTally;
    IgnoreOnce(q, m);
    if q.phase.Created? {
      if x.Matched? {
        RecordsOnce(q, m, x);
        var q1 := PutEvent(Recorded(q, m, x));
        var portalsAck := !x.ackDisable && !q.command.ackReq.NoAckReq?;
        RecordedFits(q, m, x);
        SendAckOnce(c, x.list.Overflow?, m, msg, q, q1, if portalsAck then PtlAck else E2eAck, NiOk);
        RecordedOnce(q, m, x, None);
      } else {
        SendAckOnce(c, false, m, msg, q, q, PtlAck, x.fail);
      }
    }
  }

  lemma IgnoreOnce(q: Req, m: MsgId)
    requires OnceReq(q)
    ensures ReactsOnce(q, m, Ignore(q))
  {
  }

  lemma RecordedFits(q: Req, m: MsgId, x: Match)
    requires OnceReq(q) && q.phase.Created? && x.Matched? && TargetOnce(PutEvent(Recorded(q, m, x)))
    ensures OnceReq(PutEvent(Recorded(q, m, x)))
    ensures PutEvent(Recorded(q, m, x)).header == if x.list.Overflow? then Some(m) else q.header
    ensures TargetTally(q.targetLog, OverflowEvent) == 0
  {
    hide TargetTally, Tally;
    TargetTallies([], [], OverflowEvent);
  }

  lemma RecordedOnce(q: Req, m: MsgId, x: Match, sends: Option<Reply>)
    requires OnceReq(q) && q.phase.Created? && x.Matched?
    ensures !PutLike(q.command.typ) ==> ReactsOnce(q, m, Reaction(x.list.Overflow?, None, Recorded(q, m, x), sends))
    ensures PutLike(q.command.typ) ==>
      ReactsOnce(q, m, Reaction(x.list.Overflow?, None, PutEvent(Recorded(q, m, x)), sends))
  {
    hide TargetTally, Tally;
    TargetTallies([], [], OverflowEvent);
    RecordsOnce(q, m, x);
  }

  lemma GetReactsOnce(q: Req, m: MsgId, x: Match, response: MsgType)
    requires OnceReq(q) && !PutLike(q.command.typ)
    ensures ReactsOnce(q, m, HandleGet(m, q, x, response))
  {
    if q.phase.Created? && x.Matched? {
      RecordedOnce(q, m, x, Some(Reply(response, 0, NiOk, x.mlength)));
    }
    hide OnceReq, TargetTally, Recorded;
  }

  lemma ReplyReactsOnce(c: Config, m: MsgId, msg: Msg, q: Req)
    requires OnceReq(q)
    ensures !PutLike(q.command.typ) ==> ReactsOnce(q, m, HandleResponse(c, msg, q))
    ensures PutLike(q.command.typ) ==> ReactsOnce(q, m, HandlePtlAck(c, msg, q))
  {
    if Rank(q.phase) <= Rank(Received) {
      FinishOnce(q, msg.fail, Answered);
    }
    assert OnceReq(q);
    hide OnceReq, TargetTally;
  }

  /** Everything an event may not disturb. */
  ghost predicate Undisturbed(q: Req, q1: Req) {
    && OnceReq(q1) && q1.phase == q.phase && q1.header == q.header && q1.command == q.command
    && TargetTally(q1.targetLog, OverflowEvent) == TargetTally(q.targetLog, OverflowEvent)
  }

  lemma EventsUndisturb(q: Req)
    requires OnceReq(q)
    ensures Undisturbed(q, MaybeIssueSend(q)) && (!PutLike(q.command.typ) ==> Undisturbed(q, MaybeIssueGet(q)))
    ensures Undisturbed(q, q)
  {
    SendsOnce(q);
    if !PutLike(q.command.typ) { GetsOnce(q); }
  }

  lemma ConcludesOnce(q: Req)
    requires OnceReq(q)
    ensures Undisturbed(q, Concluded(q))
  {
    EventsUndisturb(q);
    hide Undisturbed, OnceReq, MaybeIssueSend, MaybeIssueGet;
  }

  lemma AckReactsOnce(msgs: Msgs, m: MsgId, msg: Msg, q: Req)
    requires OnceReq(q)
    ensures ReactsOnce(q, m, HandleBxiAck(msgs, msg, q))
  {
    var q1 := q.(phase := Finished);
    assert OnceReq(q1);
    hide OnceReq, Concluded, TargetTally;
    ConcludesOnce(q1);
  }

  lemma ReactionOnce(c: Config, s: State, m: MsgId, x: Match)
    requires Live(s, m) && Types(c, s) && OnceReq(ReqOf(s, m))
    ensures ReactsOnce(ReqOf(s, m), m, ReactionTo(c, s, m, x))
  {
    assert TypedAt(c, s.msgs, s.reqs, m);
    var msg, q := s.msgs[m], ReqOf(s, m);
    assert msg.typ.PtlPut? || msg.typ.PtlAtomic? ==> PutLike(q.command.typ);
    hide HandlePut, HandleAtomic, HandleGet, HandleResponse, HandlePtlAck, HandleBxiAck, ReactsOnce, OnceReq, Typed,
         AllTyped;
    match msg.typ
    case PtlPut => PutReactsOnce(c, m, msg, q, x);
    case PtlAtomic => PutReactsOnce(c, m, msg, q, x);
    case PtlGet => GetReactsOnce(q, m, x, GetResponse);
    case PtlFetchAtomic => GetReactsOnce(q, m, x, FetchAtomicResponse);
    case GetResponse => ReplyReactsOnce(c, m, msg, q);
    case FetchAtomicResponse => ReplyReactsOnce(c, m, msg, q);
    case PtlAck => ReplyReactsOnce(c, m, msg, q);
    case E2eAck => AckReactsOnce(s.msgs, m, msg, q);
  }

  // ---------------------------------------------------------------- the invariant of the machine

  ghost predicate SameEvents(q: Req, q': Req) {
    && q'.command == q.command && q'.phase == q.phase && q'.sendIssued == q.sendIssued
    && q'.getIssued == q.getIssued && q'.matched == q.matched && q'.initiatorLog == q.initiatorLog
    && q'.targetLog == q.targetLog && q'.header == q.header
  }

  ghost predicate ReqsOnce(reqs: Reqs) {
    forall r {:trigger OnceReq(reqs[r])} :: r in reqs ==> OnceReq(reqs[r])
  }

  /** A pending header is the one its request recorded, waits once, and its OVERFLOW event is still to come. */
  ghost predicate HeadersOnce(msgs: Msgs, reqs: Reqs, at: Places) {
    forall m {:trigger at.uh[m]} :: at.uh[m] > 0 ==>
      && at.uh[m] == 1 && m in msgs && msgs[m].req in reqs
      && reqs[msgs[m].req].header == Some(m)
      && TargetTally(reqs[msgs[m].req].targetLog, OverflowEvent) == 0
  }

  ghost predicate Once(s: State) {
    ReqsOnce(s.reqs) && HeadersOnce(s.msgs, s.reqs, s.at)
  }

  /** Deleted requests do not come back, and their last record keeps what they kept. */
  ghost predicate EndedOnce(reqs: Reqs, ended: Reqs, next: nat) {
    forall r {:trigger ended[r]} :: r in ended ==> r < next && r !in reqs && OnceReq(ended[r])
  }

  /** No request is deleted or moves backwards. */
  ghost predicate Forward(reqs: Reqs, reqs': Reqs) {
    forall r {:trigger reqs'[r]} {:trigger r in reqs} ::
      r in reqs ==> r in reqs' && Rank(reqs'[r].phase) >= Rank(reqs[r].phase)
  }

  lemma OnceKept(s: State, t: State)
    requires Once(s) && t.at.uh == s.at.uh
    requires forall r {:trigger t.reqs[r]} :: r in t.reqs ==> r in s.reqs && SameEvents(s.reqs[r], t.reqs[r])
    requires forall m {:trigger s.at.uh[m]} :: s.at.uh[m] > 0 ==>
      m in t.msgs && (m in s.msgs ==> t.msgs[m].req == s.msgs[m].req) && t.msgs[m].req in t.reqs
    ensures Once(t) && (t.reqs.Keys == s.reqs.Keys ==> Forward(s.reqs, t.reqs))
  {
    forall r | r in t.reqs ensures OnceReq(t.reqs[r]) {
      assert OnceReq(s.reqs[r]);
    }
  }

  lemma ShrunkOnce(s: State, t: State)
    requires Once(s) && Shrunk(s.msgs, t.msgs, s.reqs, t.reqs, s.at) && SameRest(s, t) && RefInv(t)
    ensures Once(t)
  {
    forall m | s.at.uh[m] > 0 ensures m in t.msgs && t.msgs[m].req == s.msgs[m].req && t.msgs[m].req in t.reqs {
      assert Survives(s.msgs, t.msgs, s.at, m);
    }
    hide MessagesExact, RequestsExact, Owned;
    OnceKept(s, t);
  }

  /** One request's record is replaced. */
  lemma WriteOnce(reqs: Reqs, r: ReqId, q: Req)
    requires ReqsOnce(reqs) && OnceReq(q)
    ensures ReqsOnce(reqs[r := q])
  {
    hide OnceReq;
    var reqs' := reqs[r := q];
    forall k | k in reqs' ensures OnceReq(reqs'[k]) {
      if k != r { assert OnceReq(reqs[k]); }
    }
  }

  /** The record of a request is replaced by one with the same header story. */
  lemma RewriteOnce(s: State, r: ReqId, q: Req, t: State)
    requires Once(s) && r in s.reqs && t.reqs == s.reqs[r := q] && OnceReq(q) && t.at.uh == s.at.uh
    requires Rank(q.phase) >= Rank(s.reqs[r].phase)
    requires q.header == s.reqs[r].header || s.reqs[r].phase.Created?
    requires TargetTally(q.targetLog, OverflowEvent) == TargetTally(s.reqs[r].targetLog, OverflowEvent)
    requires forall m {:trigger s.at.uh[m]} ::
      s.at.uh[m] > 0 ==> m in t.msgs && (m in s.msgs ==> t.msgs[m].req == s.msgs[m].req)
    ensures Once(t) && Forward(s.reqs, t.reqs)
  {
    WriteOnce(s.reqs, r, q);
    assert OnceReq(s.reqs[r]);
    hide ReqsOnce, TargetTally;
  }

  lemma SpawnOnceMore(s: State, p: Port, msg: Msg, q: Req)
    requires Once(s) && s.next !in s.msgs
    requires OnceReq(q) && msg.req in s.reqs && SameEvents(s.reqs[msg.req], q)
    ensures Once(Spawn(s, p, msg, q)) && Forward(s.reqs, Spawn(s, p, msg, q).reqs)
  {
    OnceKept(s, Spawn(s, p, msg, q));
  }

  lemma SameOnce(q: Req, q': Req)
    requires OnceReq(q) && SameEvents(q, q')
    ensures OnceReq(q')
  {
  }

  lemma ApplyOnce(c: Config, s: State, m: MsgId, a: Reaction)
    requires Once(s) && Live(s, m) && s.next !in s.msgs && a.Reaction? && ReactsOnce(ReqOf(s, m), m, a)
    ensures Once(Apply(c, s, m, a)) && Forward(s.reqs, Apply(c, s, m, a).reqs)
  {
    var r, q, t := s.msgs[m].req, ReqOf(s, m), Apply(c, s, m, a);
    assert OnceReq(q);
    ApplyShape(c, s, m, a);
    SameOnce(a.req, t.reqs[r]);
    if !a.keeps {
      RewriteOnce(s, r, t.reqs[r], t);
    } else {
      hide Apply, OnceReq, TargetTally, ReqsOnce, HeadersOnce;
      WriteOnce(s.reqs, r, t.reqs[r]);
      HeaderAdded(s, m, t.reqs[r], t);
    }
  }

  /** The first header of a request joins the others. */
  lemma HeaderAdded(s: State, m: MsgId, q: Req, t: State)
    requires HeadersOnce(s.msgs, s.reqs, s.at) && Live(s, m) && t.reqs == s.reqs[s.msgs[m].req := q]
    requires t.at.uh == s.at.uh + multiset{m} && ReqOf(s, m).header.None?
    requires forall k :: k in s.msgs ==> k in t.msgs && t.msgs[k].req == s.msgs[k].req
    requires q.header == Some(m) && TargetTally(q.targetLog, OverflowEvent) == 0
    ensures HeadersOnce(t.msgs, t.reqs, t.at)
  {
    hide TargetTally;
    assert s.at.uh[m] == 0;
  }

  lemma AnswerShape(s: State, m: MsgId, q: Req, reply: Reply)
    requires m in s.msgs && s.next !in s.msgs
    ensures var r, t := s.msgs[m].req, Answer(s, m, q, reply);
      && r in t.reqs && t.reqs == s.reqs[r := t.reqs[r]] && SameEvents(q, t.reqs[r]) && t.at.uh == s.at.uh
      && (forall k :: k in s.msgs ==> k in t.msgs && t.msgs[k].req == s.msgs[k].req)
  {
    hide Push;
  }

  lemma KeptShape(s: State, m: MsgId, q: Req)
    requires m in s.msgs
    ensures var r, t := s.msgs[m].req, SetReq(s, s.msgs[m].req, q);
      r in t.reqs && t.reqs == s.reqs[r := t.reqs[r]] && SameEvents(q, t.reqs[r]) && t.at == s.at && t.msgs == s.msgs
  {
  }

  lemma HeaderShape(s: State, m: MsgId)
    requires m in s.msgs
    ensures var t := PushHeader(s, m);
      && t.reqs == s.reqs && t.at.uh == s.at.uh + multiset{m} && t.next == s.next && t.msgs.Keys == s.msgs.Keys
      && (forall k :: k in s.msgs ==> t.msgs[k].req == s.msgs[k].req)
  {
  }

  /** What a reaction does to requests and headers. */
  lemma ApplyShape(c: Config, s: State, m: MsgId, a: Reaction)
    requires Live(s, m) && a.Reaction? && s.next !in s.msgs
    ensures var r, t := s.msgs[m].req, Apply(c, s, m, a);
      && r in t.reqs && t.reqs == s.reqs[r := t.reqs[r]] && SameEvents(a.req, t.reqs[r])
      && t.at.uh == (if a.keeps then s.at.uh + multiset{m} else s.at.uh)
      && (forall k :: k in s.msgs ==> k in t.msgs && t.msgs[k].req == s.msgs[k].req)
  {
    hide Answer, ReleaseAt, PushHeader, SetReq, SameEvents;
    var s1 := if a.keeps then PushHeader(s, m) else s;
    if a.keeps { HeaderShape(s, m); }
    var s2 := s1;
    if a.gives.Some? {
      s2 := ReleaseAt(c, s1, a.gives.value.node, a.gives.value.channel, a.gives.value.id);
    }
    if a.sends.Some? { AnswerShape(s2, m, a.req, a.sends.value); } else { KeptShape(s2, m, a.req); }
  }

  // ---------------------------------------------------------------- steps

  ghost predicate OnceSound(c: Config, s: State) {
    TypeSound(c, s) && (s.fault.NoFault? ==> Once(s) && EndedOnce(s.reqs, s.ended, s.next))
  }

  /** No request is forgotten, and none moves backwards; a deleted one stays as it was. */
  ghost predicate Outlasts(s: State, t: State, r: ReqId)
    requires Issued(s, r)
  {
    && Issued(t, r) && Rank(RecordOf(t, r).phase) >= Rank(RecordOf(s, r).phase)
    && (r !in s.reqs ==> r !in t.reqs && RecordOf(t, r) == RecordOf(s, r))
  }

  ghost predicate Onward(s: State, t: State) {
    forall r {:trigger Issued(t, r)} :: Issued(s, r) ==> Outlasts(s, t, r)
  }

  /** A step keeps the invariant and moves no request backwards. */
  ghost predicate StaysOnce(c: Config, s: State, t: State) {
    OnceSound(c, t) && (t.fault.NoFault? ==> Onward(s, t))
  }

  /** New requests have new numbers. */
  lemma ForwardOnward(s: State, t: State)
    requires Forward(s.reqs, t.reqs) && EndedOnce(s.reqs, s.ended, s.next) && t.ended == s.ended && t.next >= s.next
    requires forall r {:trigger r in t.reqs} :: r in t.reqs ==> r in s.reqs || r >= s.next
    ensures EndedOnce(t.reqs, t.ended, t.next) && Onward(s, t)
  {
    hide OnceReq;
    forall r | Issued(s, r) ensures Outlasts(s, t, r) {
      if r in s.reqs { assert r in t.reqs && Rank(t.reqs[r].phase) >= Rank(s.reqs[r].phase); }
      else { assert s.ended[r] == t.ended[r]; }
    }
  }

  lemma OnwardTwice(s: State, u: State, t: State)
    requires Onward(s, u) && Onward(u, t)
    ensures Onward(s, t)
  {
    forall r | Issued(s, r) ensures Outlasts(s, t, r) { assert Issued(u, r) && Outlasts(s, u, r); }
  }

  /** Whatever the destructors delete keeps its last record. */
  lemma BuriedOnward(u: State, t: State)
    requires Once(u) && EndedOnce(u.reqs, u.ended, u.next) && Buried(u.reqs, t.reqs, u.ended, t.ended)
    requires t.next == u.next && forall r {:trigger u.reqs[r]} :: r in u.reqs ==> r < u.next
    ensures EndedOnce(t.reqs, t.ended, t.next) && Onward(u, t)
  {
    forall r | r in t.ended ensures r < t.next && r !in t.reqs && OnceReq(t.ended[r]) {
      if r in u.reqs {
        assert OnceReq(u.reqs[r]);
        SameOnce(u.reqs[r], t.ended[r]);
      }
    }
    hide OnceReq, HeadersOnce;
    forall r | Issued(u, r) ensures Outlasts(u, t, r) {
      if r in t.reqs { assert SameButRefs(u.reqs[r], t.reqs[r]); } else { assert r in t.ended; }
    }
  }

  /** The end of a step that gives back a reference. */
  lemma SettledOnce(s: State, u: State, t: State)
    requires Once(u) && Forward(s.reqs, u.reqs) && u.reqs.Keys == s.reqs.Keys
    requires EndedOnce(s.reqs, s.ended, s.next) && u.ended == s.ended && u.next >= s.next && Settles(u, t)
    requires forall r {:trigger s.reqs[r]} :: r in s.reqs ==> r < s.next
    ensures Once(t) && EndedOnce(t.reqs, t.ended, t.next) && Onward(s, t)
  {
    hide Once, Forward, EndedOnce, Shrunk, Buried, RefInv, Onward;
    ForwardOnward(s, u);
    ShrunkOnce(u, t);
    BuriedOnward(u, t);
    OnwardTwice(s, u, t);
  }

  lemma RequestsBelow(s: State)
    requires Sound(s) && s.fault.NoFault?
    ensures forall r {:trigger s.reqs[r]} :: r in s.reqs ==> r < s.next
  {
    hide MessagesExact;
  }

  lemma DeliverOnce(c: Config, s: State, m: MsgId, x: Match)
    requires OnceSound(c, s)
    ensures StaysOnce(c, s, Deliver(c, s, m, x))
  {
    hide TypeSound, Sound, Exact, Types, React, Apply, Unref, OnceReq, ReqsOnce, HeadersOnce, Forward, EndedOnce,
         Onward, Settles;
    DeliverTypes(c, s, m, x);
    SoundOf(c, s);
    OnwardSelf(s);
    if s.fault.NoFault? && m in s.at.net {
      var s1, t := Arrived(s, m), Deliver(c, s, m, x);
      DeliverParts(c, s, m, x);
      TypesKept(c, s, s1);
      OnceArrived(s, s1);
      OnceAt(s1, m);
      ReactionOnce(c, s1, m, x);
      ReactionTyped(c, s1, m, x);
      var u := Apply(c, s1, m, ReactionTo(c, s1, m, x));
      ApplyOnce(c, s1, m, ReactionTo(c, s1, m, x));
      ApplyEnded(c, s1, m, ReactionTo(c, s1, m, x));
      RequestsBelow(s);
      SettledOnce(s, u, t);
    }
  }

  lemma OnwardSelf(s: State)
    ensures Onward(s, s)
  {
  }

  /** A handler deletes nothing itself. */
  lemma ApplyEnded(c: Config, s: State, m: MsgId, a: Reaction)
    requires Live(s, m) && a.Reaction? && s.next !in s.msgs
    ensures var u := Apply(c, s, m, a); u.ended == s.ended && u.next >= s.next && u.reqs.Keys == s.reqs.Keys
  {
    hide ReleaseAt, Answer, PushHeader;
    assert Apply(c, s, m, a).ended == s.ended && Apply(c, s, m, a).next >= s.next;
    ApplyShape(c, s, m, a);
    hide Apply, SameEvents;
  }

  lemma OnceArrived(s: State, s1: State)
    requires Once(s) && s1.msgs == s.msgs && s1.reqs == s.reqs && s1.at.uh == s.at.uh
    ensures Once(s1) && Forward(s.reqs, s1.reqs)
  {
    hide OnceReq;
  }

  lemma OnceAt(s: State, m: MsgId)
    requires Once(s) && Live(s, m)
    ensures OnceReq(ReqOf(s, m))
  {
    hide OnceReq;
  }

  lemma ConsumeOnce(c: Config, s: State, m: MsgId)
    requires OnceSound(c, s)
    ensures StaysOnce(c, s, ConsumeHeader(s, m))
  {
    hide TypeSound, Sound, Exact, Types, Unref, ReqsOnce, HeadersOnce, Forward, EndedOnce, Onward, Settles;
    ConsumeTypes(c, s, m);
    SoundOf(c, s);
    OnwardSelf(s);
    if s.fault.NoFault? && m in s.at.uh {
      var s1 := s.(at := s.at.(uh := s.at.uh - multiset{m}));
      ConsumeParts(s, m);
      NotedOnce(s, s1, m);
      RequestsBelow(s);
      SettledOnce(s, Noted(s1, m), ConsumeHeader(s, m));
    }
  }

  lemma OverflowsOnce(q: Req)
    requires q.header.Some? && TargetTally(q.targetLog, OverflowEvent) == 0
    ensures OnceReq(q) ==> OnceReq(q.(targetLog := q.targetLog + [OverflowEvent]))
  {
  }

  lemma NotedOnce(s: State, s1: State, m: MsgId)
    requires Once(s) && m in s.at.uh && s1 == s.(at := s.at.(uh := s.at.uh - multiset{m})) && Live(s1, m)
    ensures Once(Noted(s1, m)) && Forward(s.reqs, Noted(s1, m).reqs)
  {
    assert s.at.uh[m] > 0;
    var r, q := s.msgs[m].req, ReqOf(s, m);
    var q' := q.(targetLog := q.targetLog + [OverflowEvent]);
    OverflowsOnce(q);
    hide OnceReq, TargetTally;
    WriteOnce(s.reqs, r, q');
    HeadersNoted(s.msgs, s.reqs, s.at, m, q');
    hide ReqsOnce, HeadersOnce;
    assert Noted(s1, m).reqs == s.reqs[r := q'];
  }

  /** The one header of a request is gone; the headers of other requests stay. */
  lemma HeadersNoted(msgs: Msgs, reqs: Reqs, at: Places, m: MsgId, q: Req)
    requires HeadersOnce(msgs, reqs, at) && at.uh[m] > 0
    ensures HeadersOnce(msgs, reqs[msgs[m].req := q], at.(uh := at.uh - multiset{m}))
  {
    hide TargetTally;
    var uh := at.uh - multiset{m};
    forall k | uh[k] > 0 ensures at.uh[k] > 0 && k != m && msgs[k].req != msgs[m].req { }
  }

  lemma IssueOnce(c: Config, s: State, k: Command)
    requires OnceSound(c, s)
    ensures StaysOnce(c, s, Issue(s, k))
  {
    hide TypeSound, Sound, Onward, EndedOnce, Forward;
    IssueTypes(c, s, k);
    SoundOf(c, s);
    OnwardSelf(s);
    if s.fault.NoFault? && CqFree(s, Interface(k.src, k.srcPid)) > 0 {
      SoundFresh(s);
      WriteOnce(s.reqs, s.next, NewRequest(k, s.next).(msgRefs := 1));
      IssueShape(s, k);
      hide ReqsOnce, Issue, OnceReq;
      HeadersGrown(s.msgs, s.reqs, s.at, Issue(s, k));
      ForwardOnward(s, Issue(s, k));
    }
  }

  lemma IssueShape(s: State, k: Command)
    requires s.fault.NoFault? && CqFree(s, Interface(k.src, k.srcPid)) > 0 && s.next !in s.msgs && s.next !in s.reqs
    ensures var t := Issue(s, k);
      && t.reqs == s.reqs[s.next := NewRequest(k, s.next).(msgRefs := 1)] && t.at.uh == s.at.uh
      && t.msgs.Keys == s.msgs.Keys + {s.next} && (forall m :: m in s.msgs ==> t.msgs[m] == s.msgs[m])
      && Forward(s.reqs, t.reqs) && t.ended == s.ended && t.next == s.next + 1
  {
    hide Push;
  }

  lemma HeadersGrown(msgs: Msgs, reqs: Reqs, at: Places, t: State)
    requires HeadersOnce(msgs, reqs, at) && t.at.uh == at.uh
    requires forall m :: m in msgs ==> m in t.msgs && t.msgs[m] == msgs[m]
    requires forall r :: r in reqs ==> r in t.reqs && t.reqs[r] == reqs[r]
    ensures HeadersOnce(t.msgs, t.reqs, t.at)
  {
    hide TargetTally;
  }

  lemma TimeoutOnce(c: Config, s: State, n: Nid)
    requires OnceSound(c, s)
    ensures StaysOnce(c, s, Timeout(c, s, n))
  {
    hide TypeSound, Sound, Exact, Types, Unref, Retransmit, ReqsOnce, HeadersOnce, Forward, OnceReq, SameEvents,
         EndedOnce, Onward, Settles;
    TimeoutTypes(c, s, n);
    SoundOf(c, s);
    OnwardSelf(s);
    if s.fault.NoFault? && Q(s.at.e2e, n) != [] {
      var m, s1, t := Q(s.at.e2e, n)[0], Expired(s, n), Timeout(c, s, n);
      TimeoutParts(c, s, n);
      OnceArrived(s, s1);
      ExpiredTypes(c, s, n);
      RetryBound(c, s1, m);
      RequestsBelow(s);
      if Retries(c, s1.msgs[m], ReqOf(s1, m)) {
        RetransmitOnce(s1, n, m);
        SettledOnce(s, Retransmit(s1, n, m), t);
      } else {
        SettledOnce(s, s1, t);
      }
    }
  }

  lemma HeadersKnown(s: State)
    requires Once(s)
    ensures forall m {:trigger s.at.uh[m]} :: s.at.uh[m] > 0 ==> m in s.msgs && s.msgs[m].req in s.reqs
  {
    hide ReqsOnce;
  }

  lemma RetransmitOnce(s: State, n: Nid, m: MsgId)
    requires Once(s) && Live(s, m) && s.next !in s.msgs
    ensures var t := Retransmit(s, n, m);
      Once(t) && Forward(s.reqs, t.reqs) && t.reqs.Keys == s.reqs.Keys && t.ended == s.ended && t.next >= s.next
  {
    hide OnceReq, Once, Forward;
    var msg := s.msgs[m];
    var s1 := s.(msgs := s.msgs[m := msg.(retry := msg.retry + 1)]);
    HeadersKnown(s);
    OnceKept(s, s1);
    OnceAt(s1, m);
    SpawnOnceMore(s1, Port(n, VnOf(msg)), RetryOf(msg), ReqOf(s, m));
  }

  lemma DispatchedOnce(c: Config, msg: Msg, q: Req)
    requires OnceReq(q) && Fits(msg.typ, q.command.typ)
    ensures Undisturbed(q, OnDispatch(c, msg, q))
  {
    EventsUndisturb(q);
    hide Undisturbed, OnceReq, MaybeIssueSend, MaybeIssueGet;
  }

  lemma SentOnce(c: Config, s: State, n: Nid, m: MsgId)
    requires Once(s) && Types(c, s) && Live(s, m)
    ensures Once(Dispatch(c, s, n, m)) && Forward(s.reqs, Dispatch(c, s, n, m).reqs)
  {
    assert TypedAt(c, s.msgs, s.reqs, m);
    hide OnceReq, Once, AllTyped, OnDispatch, Forward;
    OnceAt(s, m);
    DispatchedOnce(c, s.msgs[m], ReqOf(s, m));
    HeadersKnown(s);
    RewriteOnce(s, s.msgs[m].req, OnDispatch(c, s.msgs[m], ReqOf(s, m)), Dispatch(c, s, n, m));
  }

  lemma TransmitOnce(c: Config, s: State, p: Port)
    requires OnceSound(c, s)
    ensures StaysOnce(c, s, Transmit(c, s, p))
  {
    hide TypeSound, Sound, Types, Dispatch, ReqsOnce, HeadersOnce, Forward, EndedOnce, Onward;
    TransmitTypes(c, s, p);
    SoundOf(c, s);
    OnwardSelf(s);
    if s.fault.NoFault? && Q(s.at.tx, p) != [] {
      var m, popped, t := Q(s.at.tx, p)[0], Popped(s, p), Transmit(c, s, p);
      if Live(s, m) {
        var msg, q := s.msgs[m], ReqOf(s, m);
        if !NeedsCredit(c, msg) {
          OnceArrived(s, popped);
          TypesKept(c, s, popped);
          SentOnce(c, popped, p.nid, m);
          ForwardOnward(s, t);
        } else {
          match CheckFlowctrl(c, FlowOf(s, p.nid), ChargedChannel(msg, q))
          case NegativeCredit =>
          case Refused(f) =>
            OnceArrived(s, t);
            ForwardOnward(s, t);
          case Granted(f) =>
            if f.entries > 0 {
              var charged := ChargeFor(popped, p.nid, f, msg, q);
              OnceArrived(s, charged);
              TypesKept(c, s, charged);
              SentOnce(c, charged, p.nid, m);
              ForwardOnward(s, t);
            }
        }
      }
    }
  }

  lemma NextOnce(c: Config, s: State, t: Step)
    requires OnceSound(c, s)
    ensures StaysOnce(c, s, Next(c, s, t))
  {
    hide OnceSound, StaysOnce, Issue, Transmit, Deliver, Timeout, ConsumeHeader;
    match t
    case IssueStep(k) => IssueOnce(c, s, k);
    case TransmitStep(p) => TransmitOnce(c, s, p);
    case DeliverStep(m, x) => DeliverOnce(c, s, m, x);
    case TimeoutStep(n) => TimeoutOnce(c, s, n);
    case HeaderStep(m) => ConsumeOnce(c, s, m);
  }

  lemma {:induction false} RunOnce(c: Config, steps: seq<Step>)
    ensures OnceSound(c, Run(c, steps))
  {
    hide TypeSound;
    RunTypes(c, steps);
    if steps != [] {
      RunOnce(c, steps[..|steps| - 1]);
      NextOnce(c, Run(c, steps[..|steps| - 1]), steps[|steps| - 1]);
    }
  }

  /** Under any pattern of retransmission and duplicate delivery, for requests that are live and for those that are
      deleted: a request that was matched has touched the target exactly once - one memory update, one counter
      increment if the entry counts, one header if it is an overflow entry, and for Puts and Atomics one direct event
      if it raises one - and one that was not has not touched it; at the target either the direct event or the
      OVERFLOW event is raised, never both and never twice; the initiator sees SEND once it is issued, and at most
      one of ACK and REPLY. */
  lemma AtMostOnce(c: Config, steps: seq<Step>, r: ReqId)
    requires Run(c, steps).fault.NoFault? && Issued(Run(c, steps), r)
    ensures var q := RecordOf(Run(c, steps), r);
      && Tally(q.initiatorLog, SendEv) == Bit(q.sendIssued && q.command.sendEvents)
      && Tally(q.initiatorLog, SendCt) == Bit(q.sendIssued && q.command.ctSend)
      && Tally(q.initiatorLog, AckEv) + Tally(q.initiatorLog, ReplyEv) <= 1
      && Tally(q.initiatorLog, AckCt) + Tally(q.initiatorLog, ReplyCt) <= 1
      && (q.phase.Created? ==> q.matched.None?) && (q.phase.Received? ==> q.matched.Some?)
      && (q.matched.None? ==> q.targetLog == [])
      && (q.matched.Some? ==>
            && q.matched.value.Matched?
            && TargetTally(q.targetLog, Effect) == 1
            && TargetTally(q.targetLog, TargetCount) == Bit(q.matched.value.ctComm)
            && TargetTally(q.targetLog, HeaderPush) == Bit(q.matched.value.list.Overflow?)
            && (PutLike(q.command.typ) ==>
                  TargetTally(q.targetLog, DirectEvent) ==
                  Bit(q.matched.value.list.Priority? && !q.matched.value.silent)))
      && TargetTally(q.targetLog, DirectEvent) + TargetTally(q.targetLog, OverflowEvent) <= 1
  {
    hide TypeSound;
    RunOnce(c, steps);
    RecordOnce(Run(c, steps), r);
    hide Run, Tally, TargetTally;
  }

  lemma RecordOnce(s: State, r: ReqId)
    requires Once(s) && EndedOnce(s.reqs, s.ended, s.next) && Issued(s, r)
    ensures OnceReq(RecordOf(s, r))
  {
    hide OnceReq;
  }

  /** No step forgets a request or moves it back to an earlier state; what a deleted request was last stays. */
  lemma PhaseNeverDecreases(c: Config, steps: seq<Step>, t: Step, r: ReqId)
    requires var s := Run(c, steps); Issued(s, r) && Next(c, s, t).fault.NoFault?
    ensures var s, s' := Run(c, steps), Next(c, Run(c, steps), t);
      && Issued(s', r) && Rank(RecordOf(s', r).phase) >= Rank(RecordOf(s, r).phase)
      && (r !in s.reqs ==> RecordOf(s', r) == RecordOf(s, r))
  {
    hide OnceSound, Next;
    RunOnce(c, steps);
    NextOnce(c, Run(c, steps), t);
  }
}
