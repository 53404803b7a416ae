/** What each request shows, event by event, in every run: to its initiator, what took it past RECEIVED; at the target,
    what its match calls for. Any retransmission, duplication and matching outcome, with E2E on or off. */
module NicStories {
  import opened Wire
  import opened Queues
  import opened FlowControl
  import opened Nic
  import opened NicRefs
  import opened NicParking
  import opened NicRefRuns
  import opened NicTypes
  import opened NicOnce
  import opened NicFrames

  // ---------------------------------------------------------------- what should be seen

  /** A request message that is short enough to be buffered counts as sent when it leaves. */
  predicate Buffered(k: Command) {
    !k.typ.GetReq? && k.length <= 64
  }

  function LengthOf(x: Option<Match>): nat {
    match x case Some(Matched(_, _, _, _, mlength, _)) => mlength case _ => 0
  }

  function OffsetOf(x: Option<Match>): nat {
    match x case Some(Matched(_, _, _, _, _, offset)) => offset case _ => 0
  }

  function SendsOf(k: Command): seq<InitiatorEvent> {
    (if k.ctSend then [SendCount] else []) + (if k.sendEvents then [SendEvent] else [])
  }

  function AcksOf(k: Command, fail: NiFail, x: Option<Match>): seq<InitiatorEvent> {
    (if k.ctAck then [AckCount] else [])
    + (if k.ackReq.FullAckReq? then [AckEvent(fail, LengthOf(x), OffsetOf(x))] else [])
  }

  function RepliesOf(k: Command, fail: NiFail, x: Option<Match>): seq<InitiatorEvent> {
    (if k.ctReply then [ReplyCount] else []) + [ReplyEvent(fail, LengthOf(x), OffsetOf(x))]
  }

  /** What takes a request past RECEIVED: in quick mode the request message itself, else a Portals ACK, a response,
      or an E2E ACK for the request message. */
  datatype Cause = ByRequest(fail: NiFail) | ByAck(fail: NiFail) | ByResponse(fail: NiFail) | ByConfirmation

  /** Message `msg` is such a cause for request `q`. */
  predicate Causes(c: Config, msg: Msg, q: Req, x: Match, cause: Cause) {
    match cause
    case ByRequest(f) =>
      && PutLike(q.command.typ) && IsRequest(msg.typ) && q.phase.Created? && c.quickAcks
      && f == (if x.Matched? then NiOk else x.fail)
    case ByAck(f) => PutLike(q.command.typ) && msg.typ.PtlAck? && f == msg.fail
    case ByResponse(f) =>
      !PutLike(q.command.typ) && (msg.typ.GetResponse? || msg.typ.FetchAtomicResponse?) && f == msg.fail
    case ByConfirmation => PutLike(q.command.typ) && msg.typ.E2eAck?
  }

  /** Everything the initiator has seen of a request of command `k`, matched as `x`, once `cause` has settled it. */
  function Told(k: Command, x: Option<Match>, cause: Cause): seq<InitiatorEvent> {
    match cause
    case ByRequest(f) => SendsOf(k) + AcksOf(k, f, x)
    case ByAck(f) => SendsOf(k) + AcksOf(k, f, x)
    case ByResponse(f) => (if Buffered(k) then SendsOf(k) else []) + RepliesOf(k, f, x)
    case ByConfirmation => if Buffered(k) || k.ackReq.NoAckReq? then SendsOf(k) else []
  }

  /** What a match does at the target at once. */
  function MatchEvents(x: Match): seq<TargetEvent>
    requires x.Matched?
  {
    (if x.list.Overflow? then [HeaderPush] else []) + [Effect] + (if x.ctComm then [TargetCount] else [])
  }

  /** And later: a priority entry that is not silent raises its event once the operation is over, and an overflow
      entry once the header is taken from the unexpected ones. */
  function LaterEvents(x: Match, over: bool, pending: bool): seq<TargetEvent>
    requires x.Matched?
  {
    if x.list.Overflow? then (if pending then [] else [OverflowEvent])
    else if over && !x.silent then [DirectEvent] else []
  }

  // ---------------------------------------------------------------- one request

  predicate Pending(uh: multiset<MsgId>, header: Option<MsgId>) {
    header.Some? && header.value in uh
  }

  /** SEND is raised when a buffered request leaves, and before RECEIVED is over the initiator sees nothing else. */
  predicate SendTold(q: Req, left: bool) {
    && (left && Buffered(q.command) ==> q.sendIssued) && (!left ==> q.phase.Created?)
    && (PutLike(q.command.typ) && q.phase.Answered? ==> q.sendIssued)
    && (Rank(q.phase) <= Rank(Received) ==>
          && (q.sendIssued <==> left && Buffered(q.command))
          && q.initiatorLog == if q.sendIssued then SendsOf(q.command) else [])
  }

  /** `getIssued` says that the operation of a Get or FetchAtomic is over. */
  predicate TargetTold(q: Req, pending: bool) {
    match q.matched
    case None => q.targetLog == [] && q.header.None?
    case Some(x) =>
      && x.Matched? && (q.header.Some? <==> x.list.Overflow?) && !q.phase.Created?
      && q.targetLog == MatchEvents(x) + LaterEvents(x, PutLike(q.command.typ) || q.getIssued, pending)
  }

  predicate Recounts(c: Config, q: Req, left: bool, pending: bool) {
    && SendTold(q, left) && TargetTold(q, pending)
    && (!c.e2eOff && !PutLike(q.command.typ) ==> (q.getIssued <==> q.phase.Finished?))
  }

  /** How the initiator's side of a request goes on. */
  ghost predicate Proceeds(q: Req, q': Req) {
    && q'.command == q.command && (Rank(q.phase) > Rank(Received) ==>
          Rank(q'.phase) > Rank(Received) && q'.initiatorLog == q.initiatorLog && q'.matched == q.matched)
  }

  /** A handler settles the request for a cause, or leaves it where it was. */
  ghost predicate Recounted(c: Config, m: MsgId, msg: Msg, q: Req, x: Match, pending: bool, a: Reaction)
    requires a.Reaction?
  {
    && Proceeds(q, a.req) && Recounts(c, a.req, true, a.keeps || pending)
    && (a.keeps ==> a.req.header == Some(m) && q.header.None?) && (!a.keeps ==> a.req.header == q.header)
    && (Rank(q.phase) <= Rank(Received) < Rank(a.req.phase) ==>
          exists cause :: Causes(c, msg, q, x, cause) && a.req.initiatorLog == Told(q.command, a.req.matched, cause))
    && (a.sends.Some? && a.sends.value.typ.E2eAck? ==>
          !c.e2eOff && (!PutLike(q.command.typ) ==> Rank(a.req.phase) >= Rank(Answered)))
    && (!msg.typ.E2eAck? ==> a.req.getIssued == q.getIssued) && Rank(a.req.phase) >= Rank(q.phase)
  }

  // ---------------------------------------------------------------- handlers

  lemma SendIsSends(q: Req)
    ensures var q' := MaybeIssueSend(q);
      && q'.command == q.command && q'.phase == q.phase && q'.matched == q.matched && q'.header == q.header
      && q'.targetLog == q.targetLog && q'.getIssued == q.getIssued && q'.sendIssued
      && q'.initiatorLog == q.initiatorLog + (if q.sendIssued then [] else SendsOf(q.command))
  {
  }

  lemma AckIsAcks(q: Req, fail: NiFail)
    requires q.matched.Some? ==> q.matched.value.Matched?
    ensures IssueAck(q, fail) == q.(initiatorLog := q.initiatorLog + AcksOf(q.command, fail, q.matched))
  {
  }

  lemma ReplyIsReplies(q: Req, fail: NiFail)
    requires q.matched.Some? ==> q.matched.value.Matched?
    ensures IssueReply(q, fail) == q.(initiatorLog := q.initiatorLog + RepliesOf(q.command, fail, q.matched))
  {
  }

  /** A request that is matched for the first time. */
  lemma RecordedTold(q: Req, m: MsgId, x: Match)
    requires TargetTold(q, false) && q.phase.Created? && x.Matched?
    ensures var q' := Recorded(q, m, x);
      && q'.command == q.command && q'.phase.Received? && q'.initiatorLog == q.initiatorLog
      && q'.sendIssued == q.sendIssued && q'.getIssued == q.getIssued && q'.matched == Some(x)
      && q'.header == (if x.list.Overflow? then Some(m) else None)
    ensures PutLike(q.command.typ) ==> TargetTold(PutEvent(Recorded(q, m, x)), x.list.Overflow?)
    ensures !PutLike(q.command.typ) && !q.getIssued ==> TargetTold(Recorded(q, m, x), x.list.Overflow?)
  {
  }

  lemma PutEventKeeps(q: Req)
    ensures var q' := PutEvent(q);
      && q'.command == q.command && q'.phase == q.phase && q'.matched == q.matched && q'.header == q.header
      && q'.initiatorLog == q.initiatorLog && q'.sendIssued == q.sendIssued && q'.getIssued == q.getIssued
  {
  }

  /** In quick mode the request message settles the request; `q1` is the record with its match. */
  lemma SendAckTold(c: Config, m: MsgId, msg: Msg, q: Req, q1: Req, x: Match, typ: MsgType, keeps: bool)
    requires PutLike(q.command.typ) && IsRequest(msg.typ) && q.phase.Created? && q1.command == q.command
    requires Recounts(c, q1, true, keeps) && Rank(q1.phase) <= Rank(Received) && (typ.E2eAck? ==> !c.e2eOff)
    requires q1.getIssued == q.getIssued
    requires if keeps then q1.header == Some(m) && q.header.None? else q1.header == q.header
    requires q1.phase.Created? ==> q1.matched.None?
    ensures Recounted(c, m, msg, q, x, false, SendAck(c, keeps, msg, q1, typ, if x.Matched? then NiOk else x.fail))
  {
    if c.quickAcks {
      var fail := if x.Matched? then NiOk else x.fail;
      QuickAckTold(q1, fail, keeps);
      assert Causes(c, msg, q, x, ByRequest(fail));
      hide MaybeIssueSend, IssueAck, SendsOf, AcksOf, TargetTold;
    } else {
      hide MaybeIssueSend, IssueAck, SendsOf, AcksOf, TargetTold;
    }
  }

  lemma QuickAckTold(q: Req, fail: NiFail, pending: bool)
    requires SendTold(q, true) && TargetTold(q, pending) && Rank(q.phase) <= Rank(Received)
    ensures var q' := IssueAck(MaybeIssueSend(q.(phase := Finished)), fail);
      && q'.command == q.command && q'.phase.Finished? && q'.matched == q.matched && q'.header == q.header
      && q'.sendIssued && TargetTold(q', pending) && q'.getIssued == q.getIssued
      && q'.initiatorLog == SendsOf(q.command) + AcksOf(q.command, fail, q.matched)
  {
    SendIsSends(q.(phase := Finished));
    var q1 := MaybeIssueSend(q.(phase := Finished));
    AckIsAcks(q1, fail);
    LaterSame(q, IssueAck(q1, fail), pending);
    hide MaybeIssueSend, IssueAck, SendsOf, AcksOf, TargetTold;
  }

  /** The target does not see what the initiator is told. */
  lemma LaterSame(q: Req, q': Req, pending: bool)
    requires TargetTold(q, pending) && q'.command == q.command && q'.matched == q.matched && q'.header == q.header
    requires q'.targetLog == q.targetLog && q'.getIssued == q.getIssued && !q'.phase.Created?
    ensures TargetTold(q', pending)
  {
  }

  lemma IgnoreTold(c: Config, m: MsgId, msg: Msg, q: Req, x: Match, pending: bool)
    requires Recounts(c, q, true, pending)
    ensures Recounted(c, m, msg, q, x, pending, Ignore(q))
  {
  }

  lemma PutTold(c: Config, m: MsgId, msg: Msg, q: Req, x: Match, pending: bool)
    requires Recounts(c, q, true, pending) && PutLike(q.command.typ) && IsRequest(msg.typ)
    requires q.header.None? ==> !pending
    ensures Recounted(c, m, msg, q, x, pending, HandlePut(c, m, msg, q, x))
    ensures Recounted(c, m, msg, q, x, pending, HandleAtomic(c, m, msg, q, x))
  {
    IgnoreTold(c, m, msg, q, x, pending);
    if q.phase.Created? {
      assert q.matched.None? && q.header.None?;
      if x.Matched? {
        RecordedTold(q, m, x);
        PutEventKeeps(Recorded(q, m, x));
        var q1 := PutEvent(Recorded(q, m, x));
        var portalsAck := !x.ackDisable && !q.command.ackReq.NoAckReq?;
        if portalsAck || !c.e2eOff {
          SendAckTold(c, m, msg, q, q1, x, if portalsAck then PtlAck else E2eAck, x.list.Overflow?);
        }
        hide Recorded, PutEvent, SendAck, TargetTold;
      } else {
        SendAckTold(c, m, msg, q, q, x, PtlAck, false);
        hide SendAck;
      }
    }
  }

  lemma GetTold(c: Config, m: MsgId, msg: Msg, q: Req, x: Match, pending: bool, response: MsgType)
    requires Recounts(c, q, true, pending) && !PutLike(q.command.typ) && IsRequest(msg.typ)
    requires (q.header.None? ==> !pending) && (q.phase.Created? ==> !q.getIssued) && !response.E2eAck?
    ensures Recounted(c, m, msg, q, x, pending, HandleGet(m, q, x, response))
  {
    if q.phase.Created? && x.Matched? {
      RecordedTold(q, m, x);
      hide Recorded, TargetTold;
    }
  }

  lemma ResponseTold(c: Config, m: MsgId, msg: Msg, q: Req, x: Match, pending: bool)
    requires Recounts(c, q, true, pending) && !PutLike(q.command.typ)
    requires msg.typ.GetResponse? || msg.typ.FetchAtomicResponse?
    ensures Recounted(c, m, msg, q, x, pending, HandleResponse(c, msg, q))
  {
    ReplyIsReplies(q.(phase := Answered), msg.fail);
    if Rank(q.phase) <= Rank(Received) { assert Causes(c, msg, q, x, ByResponse(msg.fail)); }
    hide IssueReply, SendsOf, RepliesOf, MatchEvents, LaterEvents;
  }

  lemma PtlAckTold(c: Config, m: MsgId, msg: Msg, q: Req, x: Match, pending: bool)
    requires Recounts(c, q, true, pending) && PutLike(q.command.typ) && msg.typ.PtlAck?
    ensures Recounted(c, m, msg, q, x, pending, HandlePtlAck(c, msg, q))
  {
    if Rank(q.phase) <= Rank(Received) {
      AckAnswers(q, msg.fail, pending);
      assert Causes(c, msg, q, x, ByAck(msg.fail));
    }
    hide MaybeIssueSend, IssueAck, SendsOf, AcksOf, TargetTold;
  }

  /** A Portals ACK takes the request past RECEIVED. */
  lemma AckAnswers(q: Req, fail: NiFail, pending: bool)
    requires SendTold(q, true) && TargetTold(q, pending) && Rank(q.phase) <= Rank(Received)
    ensures var q' := IssueAck(MaybeIssueSend(q.(phase := Answered)), fail);
      && q'.command == q.command && q'.phase.Answered? && q'.matched == q.matched && q'.header == q.header
      && q'.sendIssued && TargetTold(q', pending) && q'.getIssued == q.getIssued
      && q'.initiatorLog == SendsOf(q.command) + AcksOf(q.command, fail, q.matched)
  {
    var q1 := q.(phase := Answered);
    SendIsSends(q1);
    AckIsAcks(MaybeIssueSend(q1), fail);
    LaterSame(q, IssueAck(MaybeIssueSend(q1), fail), pending);
    hide MaybeIssueSend, IssueAck, SendsOf, AcksOf, TargetTold;
  }

  /** The target event of a Get or FetchAtomic is raised, once. */
  lemma GetIsOver(q: Req, pending: bool)
    requires TargetTold(q, pending) && !PutLike(q.command.typ)
    ensures var q' := MaybeIssueGet(q);
      && TargetTold(q', pending) && q'.getIssued && q'.command == q.command && q'.phase == q.phase
      && q'.matched == q.matched && q'.header == q.header && q'.initiatorLog == q.initiatorLog
      && q'.sendIssued == q.sendIssued
  {
  }

  lemma ConfirmationTold(c: Config, msgs: Msgs, m: MsgId, msg: Msg, q: Req, x: Match, pending: bool)
    requires Recounts(c, q, true, pending) && msg.typ.E2eAck? && msg.answers.Some? && msg.answers.value in msgs
    requires !PutLike(q.command.typ) ==> Rank(q.phase) >= Rank(Answered)
    ensures Recounted(c, m, msg, q, x, pending, HandleBxiAck(msgs, msg, q))
  {
    var q1 := q.(phase := Finished);
    SendIsSends(q1);
    if !PutLike(q.command.typ) { GetIsOver(q1, pending); }
    else { assert Causes(c, msg, q, x, ByConfirmation); }
    hide MaybeIssueSend, MaybeIssueGet, SendsOf, MatchEvents, LaterEvents;
  }

  lemma ReactionTold(c: Config, s: State, m: MsgId, x: Match, pending: bool)
    requires Live(s, m) && Types(c, s) && LinkSound(s.msgs, m) && Recounts(c, ReqOf(s, m), true, pending)
    requires var q := ReqOf(s, m);
      && (q.header.None? ==> !pending)
      && (!PutLike(q.command.typ) && s.msgs[m].typ.E2eAck? ==> Rank(q.phase) >= Rank(Answered))
      && (!PutLike(q.command.typ) && IsRequest(s.msgs[m].typ) && q.phase.Created? ==> !q.getIssued)
    ensures var a := ReactionTo(c, s, m, x);
      a.Reaction? && Recounted(c, m, s.msgs[m], ReqOf(s, m), x, pending, a)
  {
    assert TypedAt(c, s.msgs, s.reqs, m);
    var msg, q := s.msgs[m], ReqOf(s, m);
    assert msg.typ.PtlPut? || msg.typ.PtlAtomic? || msg.typ.PtlAck? ==> PutLike(q.command.typ);
    hide HandlePut, HandleAtomic, HandleGet, HandleResponse, HandlePtlAck, HandleBxiAck, Recounted, Recounts, AllTyped;
    match msg.typ
    case PtlPut => PutTold(c, m, msg, q, x, pending);
    case PtlAtomic => PutTold(c, m, msg, q, x, pending);
    case PtlGet => GetTold(c, m, msg, q, x, pending, GetResponse);
    case PtlFetchAtomic => GetTold(c, m, msg, q, x, pending, FetchAtomicResponse);
    case GetResponse => ResponseTold(c, m, msg, q, x, pending);
    case FetchAtomicResponse => ResponseTold(c, m, msg, q, x, pending);
    case PtlAck => PtlAckTold(c, m, msg, q, x, pending);
    case E2eAck => ConfirmationTold(c, s.msgs, m, msg, q, x, pending);
  }

  /** A message leaves: a buffered request message raises SEND, and with E2E off a response the target event. */
  lemma DispatchTold(c: Config, msg: Msg, q: Req, left: bool, left': bool, pending: bool)
    requires Recounts(c, q, left, pending) && Fits(msg.typ, q.command.typ) && (left ==> left')
    requires (!IsRequest(msg.typ) ==> left) && (IsRequest(msg.typ) ==> left')
    requires IsRequest(msg.typ) && !msg.typ.PtlGet? ==> msg.size == q.command.length
    ensures var q' := OnDispatch(c, msg, q);
      && Recounts(c, q', left', pending) && Proceeds(q, q') && q'.phase == q.phase && q'.header == q.header
      && q'.matched == q.matched
      && (c.e2eOff && !PutLike(q.command.typ) ==>
            (q'.getIssued <==> q.getIssued || msg.typ.GetResponse? || msg.typ.FetchAtomicResponse?))
  {
    SendIsSends(q);
    if !PutLike(q.command.typ) { GetIsOver(q, pending); }
    hide MaybeIssueSend, MaybeIssueGet, SendsOf, MatchEvents, LaterEvents;
  }

  /** The OVERFLOW event of a pending header. */
  lemma HeaderTold(c: Config, q: Req, left: bool)
    requires Recounts(c, q, left, true) && q.header.Some?
    ensures var q' := q.(targetLog := q.targetLog + [OverflowEvent]); Recounts(c, q', left, false) && Proceeds(q, q')
  {
    hide SendsOf, MatchEvents;
  }

  lemma EventsTold(c: Config, q: Req, q': Req, left: bool, pending: bool)
    requires Recounts(c, q, left, pending) && SameEvents(q, q')
    ensures Recounts(c, q', left, pending) && Proceeds(q, q')
  {
    hide SendsOf, MatchEvents, LaterEvents;
  }

  // ---------------------------------------------------------------- the invariant of the machine

  ghost predicate RecordsFit(c: Config, reqs: Reqs, sent: set<MsgId>, uh: multiset<MsgId>) {
    forall r {:trigger Recounts(c, reqs[r], r in sent, Pending(uh, reqs[r].header))} ::
      r in reqs ==> Recounts(c, reqs[r], r in sent, Pending(uh, reqs[r].header))
  }

  /** A header that a request has recorded was one of its own messages. */
  ghost predicate HeaderFits(msgs: Msgs, next: nat, r: ReqId, q: Req) {
    q.header.Some? ==> q.header.value < next && (q.header.value in msgs ==> msgs[q.header.value].req == r)
  }

  ghost predicate HeadersFit(msgs: Msgs, next: nat, reqs: Reqs) {
    forall r {:trigger HeaderFits(msgs, next, r, reqs[r])} :: r in reqs ==> HeaderFits(msgs, next, r, reqs[r])
  }

  /** The first message of a request is its request message, has its number, and leaves first. */
  predicate Numbered(m: MsgId, msg: Msg, sent: set<MsgId>, q: Req) {
    && (m == msg.req ==> IsRequest(msg.typ)) && (m != msg.req ==> msg.req in sent)
    && (IsRequest(msg.typ) && !msg.typ.PtlGet? ==> msg.size == q.command.length)
    && (msg.typ.E2eAck? && !PutLike(q.command.typ) ==> Rank(q.phase) >= Rank(Answered))
  }

  ghost predicate AllNumbered(msgs: Msgs, reqs: Reqs, sent: set<MsgId>) {
    forall m {:trigger Numbered(m, msgs[m], sent, reqs[msgs[m].req])} ::
      m in msgs && msgs[m].req in reqs ==> Numbered(m, msgs[m], sent, reqs[msgs[m].req])
  }

  /** No record is both live and deleted, and only the first message of a request has its number. */
  ghost predicate Apart(msgs: Msgs, reqs: Reqs, ended: Reqs, next: nat) {
    && (forall r {:trigger r in ended} :: r in ended ==> r !in reqs && r < next)
    && (forall m {:trigger m in msgs} :: m in msgs && (m in reqs || m in ended) ==> msgs[m].req == m)
  }

  /** With E2E off there are no copies and no E2E ACKs, so a request message is handled once. */
  predicate Uncopied(m: MsgId, msg: Msg, at: Places, sent: set<MsgId>) {
    !msg.typ.E2eAck? && if IsRequest(msg.typ) then m == msg.req else !Undelivered(at, sent, msg.req)
  }

  ghost predicate AllUncopied(msgs: Msgs, at: Places, sent: set<MsgId>) {
    forall m {:trigger Uncopied(m, msgs[m], at, sent)} :: m in msgs ==> Uncopied(m, msgs[m], at, sent)
  }

  ghost predicate OverOnce(reqs: Reqs, at: Places, sent: set<MsgId>) {
    forall r {:trigger reqs[r]} :: r in reqs && !PutLike(reqs[r].command.typ) && reqs[r].getIssued ==>
      !Undelivered(at, sent, r)
  }

  ghost predicate Unwatched(at: Places) {
    forall n {:trigger Q(at.e2e, n)} :: Q(at.e2e, n) == []
  }

  ghost predicate OffFits(c: Config, s: State) {
    c.e2eOff ==> AllUncopied(s.msgs, s.at, s.sent) && OverOnce(s.reqs, s.at, s.sent) && Unwatched(s.at)
  }

  ghost predicate Stories(c: Config, s: State) {
    && RecordsFit(c, s.reqs, s.sent, s.at.uh) && RecordsFit(c, s.ended, s.sent, s.at.uh)
    && HeadersFit(s.msgs, s.next, s.reqs) && HeadersFit(s.msgs, s.next, s.ended)
    && AllNumbered(s.msgs, s.reqs, s.sent) && Apart(s.msgs, s.reqs, s.ended, s.next) && OffFits(c, s)
    && WatchedWereSent(s.at, s.sent)
  }

  ghost predicate StorySound(c: Config, s: State) {
    OnceSound(c, s) && (s.fault.NoFault? ==> Stories(c, s))
  }

  lemma RecordOfStory(c: Config, s: State, r: ReqId)
    requires Stories(c, s) && Issued(s, r)
    ensures Recounts(c, RecordOf(s, r), r in s.sent, Pending(s.at.uh, RecordOf(s, r).header))
    ensures HeaderFits(s.msgs, s.next, r, RecordOf(s, r)) && (r in s.ended ==> r !in s.reqs && r < s.next)
  {
    hide Recounts, HeaderFits, AllNumbered, OffFits;
  }

  lemma NumberOf(c: Config, s: State, m: MsgId)
    requires Stories(c, s) && Live(s, m)
    ensures Numbered(m, s.msgs[m], s.sent, ReqOf(s, m))
    ensures m in s.reqs || m in s.ended ==> s.msgs[m].req == m
    ensures c.e2eOff ==> Uncopied(m, s.msgs[m], s.at, s.sent)
  {
    hide RecordsFit, HeadersFit, Numbered, Uncopied, OverOnce, Unwatched;
  }

  // ---------------------------------------------------------------- steps that tell nothing

  ghost predicate QuietMessages(c: Config, s: State, t: State) {
    forall m {:trigger t.msgs[m]} :: m in t.msgs ==>
      if m in s.msgs then SameTale(s.msgs, t.msgs, s.sent, m) && t.msgs[m].size == s.msgs[m].size
      else m == s.next && t.msgs[m].req in t.reqs && Numbered(m, t.msgs[m], t.sent, t.reqs[t.msgs[m].req])
           && (c.e2eOff ==> Uncopied(m, t.msgs[m], t.at, t.sent))
  }

  predicate Untold(q: Req) {
    && q.phase.Created? && !q.sendIssued && !q.getIssued && q.matched.None? && q.initiatorLog == []
    && q.targetLog == [] && q.header.None?
  }

  ghost predicate QuietRequests(s: State, t: State) {
    && (forall r {:trigger t.reqs[r]} :: r in t.reqs ==>
          if r in s.reqs then SameEvents(s.reqs[r], t.reqs[r])
          else r == s.next && (r in t.msgs ==> t.msgs[r].req == r) && Untold(t.reqs[r]))
    && (forall r {:trigger t.ended[r]} :: r in t.ended ==>
          if r in s.ended then t.ended[r] == s.ended[r]
          else r in s.reqs && r !in t.reqs && SameEvents(s.reqs[r], t.ended[r]))
    && (forall r {:trigger r in s.reqs} :: r in s.reqs ==> r in t.reqs || r in t.ended)
    && s.ended.Keys <= t.ended.Keys
  }

  ghost predicate Quiet(c: Config, s: State, t: State) {
    && t.sent == s.sent && t.at.uh == s.at.uh && t.at.net <= s.at.net && s.next <= t.next <= s.next + 1
    && (s.next in t.msgs || s.next in t.reqs ==> t.next == s.next + 1)
    && (c.e2eOff && Unwatched(s.at) ==> Unwatched(t.at)) && WatchedWereSent(t.at, t.sent)
    && QuietMessages(c, s, t) && QuietRequests(s, t)
  }

  lemma QuietRecords(c: Config, s: State, t: State)
    requires RecordsFit(c, s.reqs, s.sent, s.at.uh) && RecordsFit(c, s.ended, s.sent, s.at.uh) && QuietRequests(s, t)
    requires t.sent == s.sent && t.at.uh == s.at.uh && s.next !in s.sent
    ensures RecordsFit(c, t.reqs, t.sent, t.at.uh) && RecordsFit(c, t.ended, t.sent, t.at.uh)
  {
    hide Recounts;
    forall r | r in t.reqs ensures Recounts(c, t.reqs[r], r in t.sent, Pending(t.at.uh, t.reqs[r].header)) {
      if r in s.reqs {
        assert Recounts(c, s.reqs[r], r in s.sent, Pending(s.at.uh, s.reqs[r].header));
        EventsTold(c, s.reqs[r], t.reqs[r], r in t.sent, Pending(t.at.uh, t.reqs[r].header));
      } else {
        UntoldFits(c, t.reqs[r]);
      }
    }
    forall r | r in t.ended ensures Recounts(c, t.ended[r], r in t.sent, Pending(t.at.uh, t.ended[r].header)) {
      if r in s.ended {
        assert Recounts(c, s.ended[r], r in s.sent, Pending(s.at.uh, s.ended[r].header));
      } else {
        assert Recounts(c, s.reqs[r], r in s.sent, Pending(s.at.uh, s.reqs[r].header));
        EventsTold(c, s.reqs[r], t.ended[r], r in t.sent, Pending(t.at.uh, t.ended[r].header));
      }
    }
  }

  lemma UntoldFits(c: Config, q: Req)
    requires Untold(q)
    ensures Recounts(c, q, false, false)
  {
  }

  lemma QuietHeaders(c: Config, s: State, t: State)
    requires HeadersFit(s.msgs, s.next, s.reqs) && HeadersFit(s.msgs, s.next, s.ended)
    requires QuietMessages(c, s, t) && QuietRequests(s, t) && s.next <= t.next
    ensures HeadersFit(t.msgs, t.next, t.reqs) && HeadersFit(t.msgs, t.next, t.ended)
  {
    hide Numbered, Uncopied;
    forall r | r in t.reqs ensures HeaderFits(t.msgs, t.next, r, t.reqs[r]) {
      if r in s.reqs {
        assert HeaderFits(s.msgs, s.next, r, s.reqs[r]);
        HeaderStays(c, s, t, r, s.reqs[r], t.reqs[r]);
      }
    }
    forall r | r in t.ended ensures HeaderFits(t.msgs, t.next, r, t.ended[r]) {
      if r in s.ended {
        assert HeaderFits(s.msgs, s.next, r, s.ended[r]);
        HeaderStays(c, s, t, r, s.ended[r], t.ended[r]);
      } else {
        assert HeaderFits(s.msgs, s.next, r, s.reqs[r]);
        HeaderStays(c, s, t, r, s.reqs[r], t.ended[r]);
      }
    }
  }

  lemma HeaderStays(c: Config, s: State, t: State, r: ReqId, q: Req, q': Req)
    requires HeaderFits(s.msgs, s.next, r, q) && q'.header == q.header && s.next <= t.next && QuietMessages(c, s, t)
    ensures HeaderFits(t.msgs, t.next, r, q')
  {
    if q.header.Some? && q.header.value in t.msgs {
      assert q.header.value in s.msgs && SameTale(s.msgs, t.msgs, s.sent, q.header.value);
    }
  }

  lemma NumberKept(m: MsgId, msg: Msg, msg': Msg, sent: set<MsgId>, sent': set<MsgId>, q: Req, q': Req)
    requires Numbered(m, msg, sent, q) && msg'.req == msg.req && msg'.typ == msg.typ && msg'.size == msg.size
    requires sent <= sent' && q'.command == q.command && Rank(q'.phase) >= Rank(q.phase)
    ensures Numbered(m, msg', sent', q')
  {
  }

  lemma QuietNumbers(c: Config, s: State, t: State)
    requires AllNumbered(s.msgs, s.reqs, s.sent) && QuietMessages(c, s, t) && QuietRequests(s, t) && t.sent == s.sent
    requires Owned(s.msgs, s.reqs, s.next)
    ensures AllNumbered(t.msgs, t.reqs, t.sent)
  {
    hide Numbered, Uncopied;
    forall m | m in t.msgs && t.msgs[m].req in t.reqs ensures Numbered(m, t.msgs[m], t.sent, t.reqs[t.msgs[m].req]) {
      if m in s.msgs {
        var r := s.msgs[m].req;
        assert SameTale(s.msgs, t.msgs, s.sent, m) && Numbered(m, s.msgs[m], s.sent, s.reqs[r]);
        NumberKept(m, s.msgs[m], t.msgs[m], s.sent, t.sent, s.reqs[r], t.reqs[r]);
      }
    }
  }

  lemma QuietApart(c: Config, s: State, t: State)
    requires Apart(s.msgs, s.reqs, s.ended, s.next) && QuietMessages(c, s, t) && QuietRequests(s, t)
    requires Owned(s.msgs, s.reqs, s.next) && s.next <= t.next && (s.next in t.reqs ==> s.next < t.next)
    requires forall r {:trigger r in s.reqs} :: r in s.reqs ==> r < s.next
    ensures Apart(t.msgs, t.reqs, t.ended, t.next)
  {
    hide Numbered, Uncopied;
    forall r | r in t.ended ensures r !in t.reqs && r < t.next {
      if r in s.ended { assert r !in s.reqs; }
    }
    forall m | m in t.msgs && (m in t.reqs || m in t.ended) ensures t.msgs[m].req == m {
      if m in s.msgs { assert SameTale(s.msgs, t.msgs, s.sent, m); }
    }
  }

  lemma QuietOff(c: Config, s: State, t: State)
    requires OffFits(c, s) && Quiet(c, s, t) && Owned(s.msgs, s.reqs, s.next)
    ensures OffFits(c, t)
  {
    hide Numbered;
    if c.e2eOff {
      forall r ensures Undelivered(t.at, t.sent, r) ==> Undelivered(s.at, s.sent, r) { }
      forall m | m in t.msgs ensures Uncopied(m, t.msgs[m], t.at, t.sent) {
        if m in s.msgs { assert SameTale(s.msgs, t.msgs, s.sent, m) && Uncopied(m, s.msgs[m], s.at, s.sent); }
      }
      forall r | r in t.reqs && !PutLike(t.reqs[r].command.typ) && t.reqs[r].getIssued
        ensures !Undelivered(t.at, t.sent, r)
      {
        assert r in s.reqs && SameEvents(s.reqs[r], t.reqs[r]);
      }
    }
  }

  lemma QuietStories(c: Config, s: State, t: State)
    requires Stories(c, s) && Quiet(c, s, t) && Owned(s.msgs, s.reqs, s.next) && s.next !in s.sent
    requires forall r {:trigger r in s.reqs} :: r in s.reqs ==> r < s.next
    ensures Stories(c, t)
  {
    hide RecordsFit, HeadersFit, AllNumbered, Apart, OffFits, QuietMessages, QuietRequests, Unwatched;
    QuietRecords(c, s, t);
    QuietHeaders(c, s, t);
    QuietNumbers(c, s, t);
    QuietApart(c, s, t);
    QuietOff(c, s, t);
  }

  // ---------------------------------------------------------------- destructors

  lemma SettledQuiet(c: Config, u: State, t: State)
    requires Settles(u, t) && WatchedWereSent(u.at, u.sent) && Apart(u.msgs, u.reqs, u.ended, u.next)
    requires u.next !in u.msgs && u.next !in u.reqs
    ensures Quiet(c, u, t)
  {
    hide RefInv;
    forall m | m in t.msgs ensures m in u.msgs && SameButCount(u.msgs[m], t.msgs[m]) {
      assert Survives(u.msgs, t.msgs, u.at, m);
    }
    hide Survives, Numbered, Uncopied;
    assert QuietMessages(c, u, t);
    forall r | r in u.reqs ensures r !in u.ended { assert r in u.ended ==> r !in u.reqs; }
    BuriedQuiet(u, t);
    hide QuietMessages, QuietRequests, Shrunk, Buried;
  }

  lemma BuriedQuiet(u: State, t: State)
    requires Buried(u.reqs, t.reqs, u.ended, t.ended)
    requires forall r {:trigger r in u.reqs} :: r in u.reqs ==> r !in u.ended
    ensures QuietRequests(u, t)
  {
    forall r | r in t.ended
      ensures if r in u.ended then t.ended[r] == u.ended[r] else r in u.reqs && SameEvents(u.reqs[r], t.ended[r])
    {
    }
  }

  lemma SettledStories(c: Config, u: State, t: State, m: MsgId)
    requires Stories(c, u) && Parking(u) && Settles(u, t) && Exact(u, multiset{m}, multiset{})
    ensures Stories(c, t) && t.fault == u.fault
  {
    hide RecordsFit, HeadersFit, AllNumbered, OffFits, Kept, RefInv, MessagesExact, Shrunk, Buried, Quiet, Apart;
    NeverSent(u);
    FreshRequest(u, multiset{m}, multiset{});
    ReqsBelow(u, m);
    SettledQuiet(c, u, t);
    QuietStories(c, u, t);
  }

  lemma ReqsBelow(u: State, m: MsgId)
    requires Exact(u, multiset{m}, multiset{})
    ensures Owned(u.msgs, u.reqs, u.next) && forall r {:trigger r in u.reqs} :: r in u.reqs ==> r < u.next
  {
    hide MessagesExact;
  }

  // ---------------------------------------------------------------- Deliver

  /** Everything the stories of requests depend on, once the reaction `a` to message `m` was applied. */
  ghost predicate Applied(c: Config, s: State, m: MsgId, x: Match, a: Reaction, u: State)
    requires Live(s, m) && a.Reaction?
  {
    && Tale(s, m, Effective(c, a), u) && SameEvents(a.req, u.reqs[s.msgs[m].req])
    && u.at.uh == (if a.keeps then s.at.uh + multiset{m} else s.at.uh)
    && Recounted(c, m, s.msgs[m], ReqOf(s, m), x, Pending(s.at.uh, ReqOf(s, m).header), a)
  }

  lemma AppliedRest(c: Config, s: State, m: MsgId, x: Match, a: Reaction, u: State)
    requires Live(s, m) && a.Reaction? && Applied(c, s, m, x, a, u)
    ensures u.sent == s.sent && u.at.net == s.at.net && u.at.e2e == s.at.e2e && u.ended == s.ended
    ensures u.reqs.Keys == s.reqs.Keys && u.next == s.next + (if a.sends.Some? then 1 else 0)
    ensures forall r {:trigger u.reqs[r]} :: r in u.reqs && r != s.msgs[m].req ==> u.reqs[r] == s.reqs[r]
    ensures SameEvents(a.req, u.reqs[s.msgs[m].req])
    ensures forall k {:trigger u.msgs[k]} :: k in u.msgs ==>
      if k in s.msgs then SameButCount(s.msgs[k], u.msgs[k])
      else a.sends.Some? && k == s.next && SameButCount(Back(s, m, a.sends.value), u.msgs[k])
  {
    TaleRest(s, m, Effective(c, a), u);
    forall k | k in u.msgs
      ensures if k in s.msgs then SameButCount(s.msgs[k], u.msgs[k])
              else a.sends.Some? && k == s.next && SameButCount(Back(s, m, a.sends.value), u.msgs[k])
    {
      TaleMsgs(s, m, Effective(c, a), u, k);
    }
  }

  lemma AppliedRecords(c: Config, s: State, m: MsgId, x: Match, a: Reaction, u: State)
    requires Stories(c, s) && Live(s, m) && a.Reaction? && Applied(c, s, m, x, a, u) && s.msgs[m].req in s.sent
    ensures RecordsFit(c, u.reqs, u.sent, u.at.uh) && RecordsFit(c, u.ended, u.sent, u.at.uh)
  {
    AppliedRest(c, s, m, x, a, u);
    var r0 := s.msgs[m].req;
    forall r, q | HeaderFits(s.msgs, s.next, r, q) && r != r0
      ensures Pending(u.at.uh, q.header) == Pending(s.at.uh, q.header)
    {
    }
    hide Tale, Recounts, OffFits;
    forall r | r in u.reqs ensures Recounts(c, u.reqs[r], r in u.sent, Pending(u.at.uh, u.reqs[r].header)) {
      if r != r0 {
        assert Recounts(c, s.reqs[r], r in s.sent, Pending(s.at.uh, s.reqs[r].header));
        assert HeaderFits(s.msgs, s.next, r, s.reqs[r]);
      } else {
        EventsTold(c, a.req, u.reqs[r], true, Pending(u.at.uh, u.reqs[r].header));
      }
    }
    forall r | r in u.ended ensures Recounts(c, u.ended[r], r in u.sent, Pending(u.at.uh, u.ended[r].header)) {
      assert Recounts(c, s.ended[r], r in s.sent, Pending(s.at.uh, s.ended[r].header));
      assert HeaderFits(s.msgs, s.next, r, s.ended[r]);
    }
  }

  lemma AppliedHeaders(c: Config, s: State, m: MsgId, x: Match, a: Reaction, u: State)
    requires Stories(c, s) && Live(s, m) && a.Reaction? && Applied(c, s, m, x, a, u) && m < s.next
    ensures HeadersFit(u.msgs, u.next, u.reqs) && HeadersFit(u.msgs, u.next, u.ended)
  {
    AppliedRest(c, s, m, x, a, u);
    hide Tale, Recounts, OffFits;
    forall r | r in u.reqs ensures HeaderFits(u.msgs, u.next, r, u.reqs[r]) {
      assert HeaderFits(s.msgs, s.next, r, s.reqs[r]);
    }
    forall r | r in u.ended ensures HeaderFits(u.msgs, u.next, r, u.ended[r]) {
      assert HeaderFits(s.msgs, s.next, r, s.ended[r]);
    }
  }

  lemma AppliedNumbers(c: Config, s: State, m: MsgId, x: Match, a: Reaction, u: State)
    requires Stories(c, s) && Live(s, m) && a.Reaction? && Applied(c, s, m, x, a, u) && s.msgs[m].req in s.sent
    requires a.sends.Some? ==> !IsRequest(a.sends.value.typ)
    requires Owned(s.msgs, s.reqs, s.next) && s.next !in s.reqs && s.next !in s.ended
    ensures AllNumbered(u.msgs, u.reqs, u.sent) && Apart(u.msgs, u.reqs, u.ended, u.next)
  {
    AppliedRest(c, s, m, x, a, u);
    assert Rank(a.req.phase) >= Rank(ReqOf(s, m).phase) && a.req.command == ReqOf(s, m).command;
    hide Tale, Recounts, OffFits, RecordsFit, HeadersFit;
    forall k | k in u.msgs && u.msgs[k].req in u.reqs ensures Numbered(k, u.msgs[k], u.sent, u.reqs[u.msgs[k].req]) {
      if k in s.msgs {
        var r := s.msgs[k].req;
        assert Numbered(k, s.msgs[k], s.sent, s.reqs[r]);
        NumberKept(k, s.msgs[k], u.msgs[k], s.sent, u.sent, s.reqs[r], u.reqs[r]);
      }
    }
  }

  lemma AppliedOff(c: Config, s: State, m: MsgId, x: Match, a: Reaction, u: State)
    requires Stories(c, s) && Live(s, m) && a.Reaction? && Applied(c, s, m, x, a, u)
    requires a.sends.Some? ==> !IsRequest(a.sends.value.typ)
    requires c.e2eOff ==> !Undelivered(s.at, s.sent, s.msgs[m].req)
    ensures OffFits(c, u)
  {
    if c.e2eOff {
      NumberOf(c, s, m);
      AppliedRest(c, s, m, x, a, u);
      assert a.req.getIssued == ReqOf(s, m).getIssued && a.req.command == ReqOf(s, m).command;
      assert a.sends.Some? ==> !a.sends.value.typ.E2eAck?;
      hide Tale, Recounts, RecordsFit, HeadersFit, AllNumbered;
      forall r ensures Undelivered(u.at, u.sent, r) == Undelivered(s.at, s.sent, r) { }
      forall k | k in u.msgs ensures Uncopied(k, u.msgs[k], u.at, u.sent) {
        if k in s.msgs { assert Uncopied(k, s.msgs[k], s.at, s.sent); }
      }
      hide Recounted;
      forall n ensures Q(u.at.e2e, n) == [] { assert Q(s.at.e2e, n) == []; }
    }
  }

  /** The step hands request `r` a message that settles it. */
  predicate SettledBy(c: Config, s: State, step: Step, r: ReqId, cause: Cause) {
    && step.DeliverStep? && step.msg in s.at.net && Live(s, step.msg) && s.msgs[step.msg].req == r
    && Rank(ReqOf(s, step.msg).phase) <= Rank(Received)
    && Causes(c, s.msgs[step.msg], ReqOf(s, step.msg), step.found, cause)
  }

  /** The step sends a response of request `r`. */
  predicate ResponseLeaves(s: State, step: Step, t: State, r: ReqId) {
    && step.TransmitStep? && Q(s.at.tx, step.port) != []
    && var m := Q(s.at.tx, step.port)[0];
       && Live(s, m) && s.msgs[m].req == r && (s.msgs[m].typ.GetResponse? || s.msgs[m].typ.FetchAtomicResponse?)
       && m !in s.sent && m in t.sent
  }

  /** How one step continues the story of one request. */
  ghost predicate Continues(c: Config, s: State, step: Step, t: State, r: ReqId)
    requires Issued(s, r)
  {
    && Issued(t, r)
    && var q, q' := RecordOf(s, r), RecordOf(t, r);
       && Proceeds(q, q')
       && (Rank(q.phase) <= Rank(Received) < Rank(q'.phase) ==>
             exists cause :: SettledBy(c, s, step, r, cause) && q'.initiatorLog == Told(q'.command, q'.matched, cause))
       && (c.e2eOff && !PutLike(q.command.typ) ==> (q'.getIssued <==> q.getIssued || ResponseLeaves(s, step, t, r)))
  }

  /** A request that a step brings about is new. */
  ghost predicate Begins(s: State, t: State, r: ReqId)
    requires Issued(t, r)
  {
    Issued(s, r) || (RecordOf(t, r).phase.Created? && !RecordOf(t, r).getIssued)
  }

  ghost predicate AllContinue(c: Config, s: State, step: Step, t: State) {
    && (forall r {:trigger Continues(c, s, step, t, r)} :: Issued(s, r) ==> Continues(c, s, step, t, r))
    && (forall r {:trigger Begins(s, t, r)} :: Issued(t, r) ==> Begins(s, t, r))
  }

  lemma QuietRecord(c: Config, s: State, t: State, r: ReqId)
    requires Stories(c, s) && Quiet(c, s, t) && Issued(s, r) && Apart(t.msgs, t.reqs, t.ended, t.next)
    ensures Issued(t, r) && SameEvents(RecordOf(s, r), RecordOf(t, r))
  {
    hide RecordsFit, HeadersFit, AllNumbered, OffFits, QuietMessages;
    if r in s.reqs {
      if r in t.reqs { assert SameEvents(s.reqs[r], t.reqs[r]); } else { assert r in t.ended && r !in s.ended; }
    } else {
      assert r in s.ended && r in t.ended && t.ended[r] == s.ended[r];
    }
  }

  lemma QuietBegins(c: Config, s: State, t: State, r: ReqId)
    requires Quiet(c, s, t) && Issued(t, r)
    ensures Begins(s, t, r)
  {
    hide QuietMessages, Unwatched, WatchedWereSent;
  }

  /** A quiet step continues every story, and so does one that ends quietly. */
  lemma QuietContinues(c: Config, s: State, step: Step, t: State)
    requires Stories(c, s) && Quiet(c, s, t) && Stories(c, t)
    ensures AllContinue(c, s, step, t)
  {
    hide Stories, Quiet;
    StoriesApart(c, t);
    forall r | Issued(s, r) ensures Continues(c, s, step, t, r) {
      QuietRecord(c, s, t, r);
      QuietSent(c, s, t);
    }
    forall r | Issued(t, r) ensures Begins(s, t, r) { QuietBegins(c, s, t, r); }
  }

  lemma StoriesApart(c: Config, t: State)
    requires Stories(c, t)
    ensures Apart(t.msgs, t.reqs, t.ended, t.next) && WatchedWereSent(t.at, t.sent)
  {
  }

  lemma QuietSent(c: Config, s: State, t: State)
    requires Quiet(c, s, t)
    ensures t.sent == s.sent
  {
  }

  lemma ThenQuiet(c: Config, s: State, step: Step, u: State, t: State)
    requires AllContinue(c, s, step, u) && Stories(c, u) && Quiet(c, u, t) && Stories(c, t)
    ensures AllContinue(c, s, step, t)
  {
    hide Stories, Quiet, Told, Causes;
    StoriesApart(c, t);
    QuietSent(c, u, t);
    forall r | Issued(s, r) ensures Continues(c, s, step, t, r) {
      assert Continues(c, s, step, u, r);
      QuietRecord(c, u, t, r);
    }
    forall r | Issued(t, r) ensures Begins(s, t, r) {
      QuietBegins(c, u, t, r);
      if Issued(u, r) {
        assert Begins(s, u, r);
        QuietRecord(c, u, t, r);
      }
    }
  }

  lemma ArrivedStories(c: Config, s: State, m: MsgId)
    requires Stories(c, s) && Owned(s.msgs, s.reqs, s.next) && Parking(s) && s.next !in s.msgs && s.next !in s.reqs
    requires forall r {:trigger r in s.reqs} :: r in s.reqs ==> r < s.next
    ensures Stories(c, Arrived(s, m))
  {
    NeverSent(s);
    hide RecordsFit, HeadersFit, AllNumbered, OffFits, Apart, Kept;
    assert Quiet(c, s, Arrived(s, m));
    hide Quiet;
    QuietStories(c, s, Arrived(s, m));
  }

  /** The message of a request that is delivered finds its first message gone from the network. */
  lemma FirstDelivered(c: Config, s: State, m: MsgId)
    requires Stories(c, s) && Parking(s) && Live(s, m) && m in s.at.net
    ensures m in s.sent && s.msgs[m].req in s.sent
    ensures c.e2eOff ==> !Undelivered(Arrived(s, m).at, s.sent, s.msgs[m].req)
    ensures c.e2eOff && IsRequest(s.msgs[m].typ) && !PutLike(ReqOf(s, m).command.typ) ==> !ReqOf(s, m).getIssued
  {
    NumberOf(c, s, m);
    assert s.at.net[m] > 0;
    hide RecordsFit, HeadersFit, AllNumbered, Apart;
  }

  lemma DeliverApplied(c: Config, s: State, m: MsgId, x: Match)
    requires StorySound(c, s) && s.fault.NoFault? && m in s.at.net
    ensures Live(s, m)
    ensures var s1, a := Arrived(s, m), ReactionTo(c, s, m, x);
      && a.Reaction? && Stories(c, s1) && (a.sends.Some? ==> !IsRequest(a.sends.value.typ))
      && var u := Apply(c, s1, m, a);
         (u.fault.NoFault? ==> Applied(c, s1, m, x, a, u) && Parking(u))
  {
    hide MessagesExact, RequestsExact, Owned, Kept, Types, React, Apply, Shrunk, Tame, Tale, Stories, Recounted, Buried,
         LinkSound, RefInv, Once, EndedOnce;
    SoundOf(c, s);
    DeliverParts(c, s, m, x);
    var s1, a := Arrived(s, m), ReactionTo(c, s, m, x);
    ReqsBelow(s1, m);
    ArrivedStories(c, s, m);
    FirstDelivered(c, s, m);
    DeliveryTold(c, s, m, x);
    ReactionTame(c, s1, m, x);
    TameSends(s1, m, a);
    ApplyParks(c, s1, m, a);
    var u := Apply(c, s1, m, a);
    if u.fault.NoFault? {
      ApplyEffective(c, s1, m, a);
      ApplyShape(c, s1, m, a);
    }
  }

  lemma DeliveryTold(c: Config, s: State, m: MsgId, x: Match)
    requires Stories(c, s) && Types(c, s) && Parking(s) && Live(s, m) && m in s.at.net && LinkSound(s.msgs, m)
    ensures var a := ReactionTo(c, s, m, x);
      a.Reaction? && Recounted(c, m, s.msgs[m], ReqOf(s, m), x, Pending(s.at.uh, ReqOf(s, m).header), a)
  {
    FirstDelivered(c, s, m);
    NumberOf(c, s, m);
    RecordOfStory(c, s, s.msgs[m].req);
    hide Stories, Types, Kept, ReactionTo;
    ReactionTold(c, s, m, x, Pending(s.at.uh, ReqOf(s, m).header));
  }

  lemma AppliedStories(c: Config, s: State, m: MsgId, x: Match, a: Reaction, u: State)
    requires Stories(c, s) && Live(s, m) && a.Reaction? && Applied(c, s, m, x, a, u) && s.msgs[m].req in s.sent
    requires a.sends.Some? ==> !IsRequest(a.sends.value.typ)
    requires Owned(s.msgs, s.reqs, s.next) && s.next !in s.reqs && m < s.next
    requires c.e2eOff ==> !Undelivered(s.at, s.sent, s.msgs[m].req)
    ensures Stories(c, u)
  {
    NotEndedYet(c, s);
    AppliedRecords(c, s, m, x, a, u);
    AppliedHeaders(c, s, m, x, a, u);
    AppliedNumbers(c, s, m, x, a, u);
    AppliedOff(c, s, m, x, a, u);
    AppliedRest(c, s, m, x, a, u);
    StoriesApart(c, s);
    hide Applied, RecordsFit, HeadersFit, AllNumbered, OffFits, Apart, WatchedWereSent;
    WatchedKept(s.at, u.at, u.sent);
  }

  lemma NotEndedYet(c: Config, s: State)
    requires Stories(c, s)
    ensures s.next !in s.ended
  {
    hide RecordsFit, HeadersFit, AllNumbered, OffFits;
  }

  lemma AppliedContinues(c: Config, s: State, m: MsgId, x: Match, a: Reaction, u: State)
    requires Live(s, m) && a.Reaction? && m in s.at.net && Applied(c, Arrived(s, m), m, x, a, u)
    requires Stories(c, s) && Types(c, s)
    ensures AllContinue(c, s, DeliverStep(m, x), u)
  {
    AppliedRest(c, Arrived(s, m), m, x, a, u);
    NumberOf(c, s, m);
    StoriesApart(c, s);
    hide Tale, Recounts, Told, Causes, Stories, Types;
    forall r | Issued(s, r) ensures Continues(c, s, DeliverStep(m, x), u, r) {
      if r == s.msgs[m].req && Rank(ReqOf(s, m).phase) <= Rank(Received) < Rank(a.req.phase) {
        var cause :| Causes(c, s.msgs[m], ReqOf(s, m), x, cause)
                     && a.req.initiatorLog == Told(ReqOf(s, m).command, a.req.matched, cause);
        assert SettledBy(c, s, DeliverStep(m, x), r, cause);
      }
    }
  }

  lemma DeliverStories(c: Config, s: State, m: MsgId, x: Match)
    requires StorySound(c, s) && s.fault.NoFault? && m in s.at.net
    ensures var t := Deliver(c, s, m, x);
      t.fault.NoFault? ==> Stories(c, t) && AllContinue(c, s, DeliverStep(m, x), t)
  {
    hide MessagesExact, RequestsExact, Owned, Kept, Types, React, Apply, Stories, Buried, Shrunk, RefInv, Unref,
         Applied, LinkSound, Once, EndedOnce, Continues, Quiet;
    SoundOf(c, s);
    DeliverParts(c, s, m, x);
    DeliverApplied(c, s, m, x);
    FirstDelivered(c, s, m);
    var s1, a, t := Arrived(s, m), ReactionTo(c, s, m, x), Deliver(c, s, m, x);
    var u := Apply(c, s1, m, a);
    ReqsBelow(s1, m);
    ReqsBelow(u, m);
    if t.fault.NoFault? {
      InOwned(s1, m);
      AppliedStories(c, s1, m, x, a, u);
      AppliedContinues(c, s, m, x, a, u);
      SettledStories(c, u, t, m);
      UnrefQuiet(c, u, t, m);
      ThenQuiet(c, s, DeliverStep(m, x), u, t);
    }
  }

  lemma InOwned(s: State, m: MsgId)
    requires Owned(s.msgs, s.reqs, s.next) && m in s.msgs
    ensures m < s.next
  {
  }

  lemma UnrefQuiet(c: Config, u: State, t: State, m: MsgId)
    requires Stories(c, u) && Settles(u, t) && Exact(u, multiset{m}, multiset{})
    ensures Quiet(c, u, t)
  {
    hide MessagesExact, RequestsExact, Owned, Settles, Quiet;
    FreshRequest(u, multiset{m}, multiset{});
    StoriesApart(c, u);
    SettledQuiet(c, u, t);
  }

  // ---------------------------------------------------------------- other steps

  lemma IssueStories(c: Config, s: State, k: Command)
    requires StorySound(c, s) && s.fault.NoFault?
    ensures Stories(c, Issue(s, k)) && AllContinue(c, s, IssueStep(k), Issue(s, k))
  {
    hide TypeSound, Sound, Stories, Once, EndedOnce, Continues;
    SoundOf(c, s);
    SoundFresh(s);
    SoundBelow(s);
    NeverSent(s);
    StoriesApart(c, s);
    IssueQuiet(c, s, k);
    QuietStories(c, s, Issue(s, k));
    hide Quiet;
    QuietContinues(c, s, IssueStep(k), Issue(s, k));
  }

  lemma SoundBelow(s: State)
    requires Sound(s) && s.fault.NoFault?
    ensures Owned(s.msgs, s.reqs, s.next) && Parking(s)
    ensures forall r {:trigger r in s.reqs} :: r in s.reqs ==> r < s.next
  {
    hide MessagesExact, Kept;
  }

  lemma IssueQuiet(c: Config, s: State, k: Command)
    requires s.fault.NoFault? && s.next !in s.msgs && s.next !in s.reqs && s.next !in s.sent
    requires WatchedWereSent(s.at, s.sent) && Apart(s.msgs, s.reqs, s.ended, s.next)
    ensures Quiet(c, s, Issue(s, k))
  {
    hide Push, WatchedWereSent;
    if CqFree(s, Interface(k.src, k.srcPid)) > 0 {
      WatchedKept(s.at, Issue(s, k).at, s.sent);
    }
  }

  lemma HeaderOwner(c: Config, s: State, m: MsgId)
    requires Once(s) && m in s.at.uh
    ensures s.at.uh[m] == 1 && Live(s, m) && ReqOf(s, m).header == Some(m)
  {
    hide ReqsOnce, TargetTally;
    assert s.at.uh[m] > 0;
  }

  lemma NotedRecords(c: Config, s: State, s1: State, m: MsgId)
    requires Stories(c, s) && s1 == s.(at := s.at.(uh := s.at.uh - multiset{m})) && Live(s, m)
    requires s.at.uh[m] == 1 && ReqOf(s, m).header == Some(m)
    ensures var t := Noted(s1, m); RecordsFit(c, t.reqs, t.sent, t.at.uh) && RecordsFit(c, t.ended, t.sent, t.at.uh)
  {
    var r0, t := s.msgs[m].req, Noted(s1, m);
    forall r, q | HeaderFits(s.msgs, s.next, r, q) && r != r0
      ensures Pending(t.at.uh, q.header) == Pending(s.at.uh, q.header)
    {
    }
    hide Recounts, OffFits;
    forall r | r in t.reqs ensures Recounts(c, t.reqs[r], r in t.sent, Pending(t.at.uh, t.reqs[r].header)) {
      assert Recounts(c, s.reqs[r], r in s.sent, Pending(s.at.uh, s.reqs[r].header));
      assert HeaderFits(s.msgs, s.next, r, s.reqs[r]);
      if r == r0 { HeaderTold(c, s.reqs[r], r in s.sent); }
    }
    forall r | r in t.ended ensures Recounts(c, t.ended[r], r in t.sent, Pending(t.at.uh, t.ended[r].header)) {
      assert Recounts(c, s.ended[r], r in s.sent, Pending(s.at.uh, s.ended[r].header));
      assert HeaderFits(s.msgs, s.next, r, s.ended[r]);
    }
  }

  /** Besides its event, nothing of a request changes when its header is taken. */
  lemma NotedRest(c: Config, s: State, s1: State, m: MsgId)
    requires Stories(c, s) && s1 == s.(at := s.at.(uh := s.at.uh - multiset{m})) && Live(s, m)
    ensures var t := Noted(s1, m);
      && HeadersFit(t.msgs, t.next, t.reqs) && HeadersFit(t.msgs, t.next, t.ended)
      && AllNumbered(t.msgs, t.reqs, t.sent) && Apart(t.msgs, t.reqs, t.ended, t.next) && OffFits(c, t)
      && WatchedWereSent(t.at, t.sent)
  {
    hide Recounts;
    var t := Noted(s1, m);
    WatchedKept(s.at, t.at, s.sent);
    forall r | r in t.reqs ensures HeaderFits(t.msgs, t.next, r, t.reqs[r]) {
      assert HeaderFits(s.msgs, s.next, r, s.reqs[r]);
    }
    forall k | k in t.msgs && t.msgs[k].req in t.reqs ensures Numbered(k, t.msgs[k], t.sent, t.reqs[t.msgs[k].req]) {
      assert Numbered(k, s.msgs[k], s.sent, s.reqs[s.msgs[k].req]);
    }
    NotedOff(c, s, t);
  }

  lemma NotedOff(c: Config, s: State, t: State)
    requires OffFits(c, s) && t.msgs == s.msgs && t.sent == s.sent && t.at.net == s.at.net && t.at.e2e == s.at.e2e
    requires forall r {:trigger t.reqs[r]} :: r in t.reqs ==>
      r in s.reqs && t.reqs[r].command == s.reqs[r].command && t.reqs[r].getIssued == s.reqs[r].getIssued
    ensures OffFits(c, t)
  {
    if c.e2eOff {
      forall k | k in t.msgs ensures Uncopied(k, t.msgs[k], t.at, t.sent) {
        assert Uncopied(k, s.msgs[k], s.at, s.sent);
      }
      forall n ensures Q(t.at.e2e, n) == [] { assert Q(s.at.e2e, n) == []; }
      hide Uncopied;
    }
  }

  lemma NotedContinues(c: Config, s: State, s1: State, m: MsgId)
    requires Stories(c, s) && s1 == s.(at := s.at.(uh := s.at.uh - multiset{m})) && Live(s, m)
    ensures AllContinue(c, s, HeaderStep(m), Noted(s1, m))
  {
    hide Stories, Told;
    StoriesApart(c, s);
  }

  lemma ConsumeStories(c: Config, s: State, m: MsgId)
    requires StorySound(c, s) && s.fault.NoFault? && m in s.at.uh
    ensures var t := ConsumeHeader(s, m); Stories(c, t) && AllContinue(c, s, HeaderStep(m), t)
  {
    hide TypeSound, Sound, MessagesExact, RequestsExact, Owned, Kept, Stories, Unref, Settles, Continues, Quiet, Once,
         EndedOnce;
    SoundOf(c, s);
    SoundBelow(s);
    HeaderOwner(c, s, m);
    var s1, t := s.(at := s.at.(uh := s.at.uh - multiset{m})), ConsumeHeader(s, m);
    var u := Noted(s1, m);
    ConsumeParts(s, m);
    NotedRecords(c, s, s1, m);
    NotedRest(c, s, s1, m);
    AllStories(c, u);
    NotedContinues(c, s, s1, m);
    WaitingKept(s, u);
    NotedExact(s1, m);
    SettledStories(c, u, t, m);
    UnrefQuiet(c, u, t, m);
    ThenQuiet(c, s, HeaderStep(m), u, t);
  }

  lemma AllStories(c: Config, s: State)
    requires RecordsFit(c, s.reqs, s.sent, s.at.uh) && RecordsFit(c, s.ended, s.sent, s.at.uh)
    requires HeadersFit(s.msgs, s.next, s.reqs) && HeadersFit(s.msgs, s.next, s.ended)
    requires AllNumbered(s.msgs, s.reqs, s.sent) && Apart(s.msgs, s.reqs, s.ended, s.next) && OffFits(c, s)
    requires WatchedWereSent(s.at, s.sent)
    ensures Stories(c, s)
  {
  }

  lemma NotedExact(s1: State, m: MsgId)
    requires Taken(s1, m)
    ensures Exact(Noted(s1, m), multiset{m}, multiset{})
  {
    hide MessagesExact, RequestsExact, Kept;
    var q := ReqOf(s1, m);
    WriteExact(s1, s1.msgs[m].req, q.(targetLog := q.targetLog + [OverflowEvent]), multiset{m});
  }

  lemma WatchesWithE2e(c: Config, s: State, n: Nid)
    requires OffFits(c, s) && Q(s.at.e2e, n) != []
    ensures !c.e2eOff
  {
    hide AllUncopied, OverOnce;
  }

  lemma ExpiredWatched(s: State, n: Nid)
    requires WatchedWereSent(s.at, s.sent) && Q(s.at.e2e, n) != []
    ensures WatchedWereSent(Expired(s, n).at, s.sent) && Q(s.at.e2e, n)[0] in s.sent
  {
    PopCount(s.at.e2e, n);
    hide Count, Pop;
    forall k, m | Count(Expired(s, n).at.e2e, k, m) > 0 ensures m in s.sent { assert Count(s.at.e2e, k, m) > 0; }
  }

  lemma ExpiredQuiet(c: Config, s: State, n: Nid)
    requires Stories(c, s) && Q(s.at.e2e, n) != [] && s.next !in s.msgs && s.next !in s.reqs
    ensures Quiet(c, s, Expired(s, n)) && Q(s.at.e2e, n)[0] in s.sent && !c.e2eOff
  {
    WatchesWithE2e(c, s, n);
    ExpiredWatched(s, n);
    hide RecordsFit, HeadersFit, AllNumbered, OffFits, WatchedWereSent, Unwatched, Count, Pop;
  }

  lemma RetransmitQuiet(c: Config, s: State, n: Nid, m: MsgId)
    requires !c.e2eOff && Live(s, m) && m in s.sent && !s.msgs[m].typ.E2eAck? && s.next !in s.msgs && s.next !in s.reqs
    requires Numbered(m, s.msgs[m], s.sent, ReqOf(s, m)) && WatchedWereSent(s.at, s.sent)
    requires Apart(s.msgs, s.reqs, s.ended, s.next) && s.msgs[m].req < s.next
    ensures Quiet(c, s, Retransmit(s, n, m))
  {
    hide Push, WatchedWereSent;
    WatchedKept(s.at, Retransmit(s, n, m).at, s.sent);
  }

  lemma TimeoutStories(c: Config, s: State, n: Nid)
    requires StorySound(c, s) && s.fault.NoFault? && Q(s.at.e2e, n) != []
    ensures var t := Timeout(c, s, n); t.fault.NoFault? && Stories(c, t) && AllContinue(c, s, TimeoutStep(n), t)
  {
    hide TypeSound, Sound, MessagesExact, RequestsExact, Owned, Kept, Stories, Unref, Settles, Continues, Quiet, Once,
         EndedOnce, Types, Retransmit, LinkSound;
    SoundOf(c, s);
    SoundBelow(s);
    SoundFresh(s);
    NeverSent(s);
    var m, s1, t := Q(s.at.e2e, n)[0], Expired(s, n), Timeout(c, s, n);
    TimeoutParts(c, s, n);
    ExpiredTypes(c, s, n);
    RetryBound(c, s1, m);
    ExpiredQuiet(c, s, n);
    QuietStories(c, s, s1);
    QuietContinues(c, s, TimeoutStep(n), s1);
    ReqsBelow(s1, m);
    if Retries(c, s1.msgs[m], ReqOf(s1, m)) {
      var u := Retransmit(s1, n, m);
      RetransmitTaken(s1, n, m);
      NumberOf(c, s1, m);
      StoriesApart(c, s1);
      RetransmitQuiet(c, s1, n, m);
      QuietStories(c, s1, u);
      ThenQuiet(c, s, TimeoutStep(n), s1, u);
      SettledStories(c, u, t, m);
      UnrefQuiet(c, u, t, m);
      ThenQuiet(c, s, TimeoutStep(n), u, t);
    } else {
      SettledStories(c, s1, t, m);
      UnrefQuiet(c, s1, t, m);
      ThenQuiet(c, s, TimeoutStep(n), s1, t);
    }
  }

  // ---------------------------------------------------------------- Transmit

  /** A message has left for the network, and nothing else happened. */
  ghost predicate Gone(c: Config, s: State, m: MsgId, u: State)
    requires Live(s, m)
  {
    && u.msgs.Keys == s.msgs.Keys && u.ended == s.ended && u.next == s.next && u.sent == s.sent + {m}
    && u.reqs == s.reqs[s.msgs[m].req := OnDispatch(c, s.msgs[m], ReqOf(s, m))]
    && u.at.net == s.at.net + multiset{m} && u.at.uh == s.at.uh && (c.e2eOff ==> u.at.e2e == s.at.e2e)
    && (forall k {:trigger u.msgs[k]} :: k in s.msgs ==> SameButCount(s.msgs[k], u.msgs[k]))
  }

  lemma DispatchGone(c: Config, s: State, s1: State, n: Nid, m: MsgId)
    requires Live(s, m) && s1.msgs == s.msgs && s1.reqs == s.reqs && s1.ended == s.ended && s1.next == s.next
    requires s1.sent == s.sent && s1.at.net == s.at.net && s1.at.uh == s.at.uh && s1.at.e2e == s.at.e2e
    requires WatchedWereSent(s.at, s.sent)
    ensures var u := Dispatch(c, s1, n, m);
      Gone(c, s, m, u) && WatchedWereSent(u.at, u.sent) && u.fault == s1.fault
  {
    Launched(c, s1, n, m);
    WatchedKept(s.at, s1.at, s.sent);
    LaunchWatched(c, s1, n, m);
    hide OnDispatch, WatchedWereSent;
  }

  /** What the departure of a message means for its request. */
  lemma GoneTold(c: Config, s: State, m: MsgId)
    requires Stories(c, s) && Types(c, s) && Live(s, m)
    ensures var r, q := s.msgs[m].req, ReqOf(s, m);
      var q' := OnDispatch(c, s.msgs[m], q);
      && Recounts(c, q', r in s.sent + {m}, Pending(s.at.uh, q.header)) && Proceeds(q, q')
      && q'.phase == q.phase && q'.header == q.header && q'.matched == q.matched
      && (c.e2eOff && !PutLike(q.command.typ) ==>
            (q'.getIssued <==> q.getIssued || s.msgs[m].typ.GetResponse? || s.msgs[m].typ.FetchAtomicResponse?))
  {
    var r := s.msgs[m].req;
    NumberOf(c, s, m);
    RecordOfStory(c, s, r);
    assert TypedAt(c, s.msgs, s.reqs, m);
    hide OnDispatch, Stories, Recounts, Proceeds, Types;
    DispatchTold(c, s.msgs[m], ReqOf(s, m), r in s.sent, r in s.sent + {m}, Pending(s.at.uh, ReqOf(s, m).header));
  }

  lemma GoneRecords(c: Config, s: State, m: MsgId, u: State)
    requires Stories(c, s) && Types(c, s) && Live(s, m) && Gone(c, s, m, u)
    ensures RecordsFit(c, u.reqs, u.sent, u.at.uh) && RecordsFit(c, u.ended, u.sent, u.at.uh)
  {
    GoneTold(c, s, m);
    NumberOf(c, s, m);
    var r0 := s.msgs[m].req;
    assert forall r | r != r0 && Issued(s, r) :: r in u.sent <==> r in s.sent;
    StoriesApart(c, s);
    hide Recounts, OnDispatch, Types, HeadersFit, AllNumbered, OffFits, WatchedWereSent;
    forall r | r in u.reqs ensures Recounts(c, u.reqs[r], r in u.sent, Pending(u.at.uh, u.reqs[r].header)) {
      if r != r0 { assert Recounts(c, s.reqs[r], r in s.sent, Pending(s.at.uh, s.reqs[r].header)); }
    }
    forall r | r in u.ended ensures Recounts(c, u.ended[r], r in u.sent, Pending(u.at.uh, u.ended[r].header)) {
      assert Recounts(c, s.ended[r], r in s.sent, Pending(s.at.uh, s.ended[r].header));
    }
  }

  lemma GoneRest(c: Config, s: State, m: MsgId, u: State)
    requires Stories(c, s) && Types(c, s) && Live(s, m) && Gone(c, s, m, u)
    ensures HeadersFit(u.msgs, u.next, u.reqs) && HeadersFit(u.msgs, u.next, u.ended)
    ensures AllNumbered(u.msgs, u.reqs, u.sent) && Apart(u.msgs, u.reqs, u.ended, u.next)
  {
    GoneTold(c, s, m);
    StoriesApart(c, s);
    hide Recounts, OnDispatch, Types, OffFits, WatchedWereSent, RecordsFit;
    forall r | r in u.reqs ensures HeaderFits(u.msgs, u.next, r, u.reqs[r]) {
      assert HeaderFits(s.msgs, s.next, r, s.reqs[r]);
    }
    forall r | r in u.ended ensures HeaderFits(u.msgs, u.next, r, u.ended[r]) {
      assert HeaderFits(s.msgs, s.next, r, s.ended[r]);
    }
    forall k | k in u.msgs && u.msgs[k].req in u.reqs ensures Numbered(k, u.msgs[k], u.sent, u.reqs[u.msgs[k].req]) {
      var r := s.msgs[k].req;
      assert Numbered(k, s.msgs[k], s.sent, s.reqs[r]);
      NumberKept(k, s.msgs[k], u.msgs[k], s.sent, u.sent, s.reqs[r], u.reqs[r]);
    }
  }

  /** A message that leaves is undelivered before and after. */
  lemma GoneOff(c: Config, s: State, m: MsgId, u: State)
    requires Stories(c, s) && Types(c, s) && Live(s, m) && Gone(c, s, m, u) && m !in s.sent
    ensures OffFits(c, u)
  {
    if c.e2eOff {
      GoneTold(c, s, m);
      NumberOf(c, s, m);
      hide Recounts, OnDispatch, Types, RecordsFit, HeadersFit, AllNumbered, Apart, WatchedWereSent;
      forall r ensures Undelivered(u.at, u.sent, r) == Undelivered(s.at, s.sent, r) { }
      forall k | k in u.msgs ensures Uncopied(k, u.msgs[k], u.at, u.sent) {
        assert Uncopied(k, s.msgs[k], s.at, s.sent);
      }
      forall n ensures Q(u.at.e2e, n) == [] { assert Q(s.at.e2e, n) == []; }
    }
  }

  lemma GoneContinues(c: Config, s: State, p: Port, u: State)
    requires Stories(c, s) && Types(c, s) && Q(s.at.tx, p) != [] && Live(s, Q(s.at.tx, p)[0])
    requires Q(s.at.tx, p)[0] !in s.sent && Gone(c, s, Q(s.at.tx, p)[0], u)
    ensures AllContinue(c, s, TransmitStep(p), u)
  {
    var m := Q(s.at.tx, p)[0];
    GoneTold(c, s, m);
    StoriesApart(c, s);
    hide Recounts, OnDispatch, Types, Stories, Told;
    forall r | Issued(s, r) ensures Continues(c, s, TransmitStep(p), u, r) { }
  }

  lemma GoneStories(c: Config, s: State, p: Port, u: State)
    requires Stories(c, s) && Types(c, s) && Q(s.at.tx, p) != [] && Live(s, Q(s.at.tx, p)[0])
    requires Q(s.at.tx, p)[0] !in s.sent && Gone(c, s, Q(s.at.tx, p)[0], u) && WatchedWereSent(u.at, u.sent)
    ensures Stories(c, u) && AllContinue(c, s, TransmitStep(p), u)
  {
    var m := Q(s.at.tx, p)[0];
    GoneRecords(c, s, m, u);
    GoneRest(c, s, m, u);
    GoneOff(c, s, m, u);
    GoneContinues(c, s, p, u);
    hide Gone, Stories, Types, RecordsFit, HeadersFit, AllNumbered, OffFits, Apart, WatchedWereSent, Continues;
    AllStories(c, u);
  }

  /** A turn that sends nothing, or finds nothing to do, tells nothing. */
  lemma StillStories(c: Config, s: State, step: Step, t: State)
    requires StorySound(c, s) && s.fault.NoFault?
    requires t.msgs == s.msgs && t.reqs == s.reqs && t.ended == s.ended && t.next == s.next && t.sent == s.sent
    requires t.at.net == s.at.net && t.at.uh == s.at.uh && t.at.e2e == s.at.e2e
    ensures Stories(c, t) && AllContinue(c, s, step, t)
  {
    hide TypeSound, Sound, Stories, Once, EndedOnce, Continues;
    SoundOf(c, s);
    SoundFresh(s);
    SoundBelow(s);
    NeverSent(s);
    StoriesApart(c, s);
    StillQuiet(c, s, t);
    QuietStories(c, s, t);
    hide Quiet;
    QuietContinues(c, s, step, t);
  }

  lemma StillQuiet(c: Config, s: State, t: State)
    requires t.msgs == s.msgs && t.reqs == s.reqs && t.ended == s.ended && t.next == s.next && t.sent == s.sent
    requires t.at.net == s.at.net && t.at.uh == s.at.uh && t.at.e2e == s.at.e2e
    requires s.next !in s.msgs && s.next !in s.reqs && WatchedWereSent(s.at, s.sent)
    ensures Quiet(c, s, t)
  {
    WatchedKept(s.at, t.at, s.sent);
    hide WatchedWereSent;
  }

  lemma TransmitStories(c: Config, s: State, p: Port)
    requires StorySound(c, s) && s.fault.NoFault?
    ensures var t := Transmit(c, s, p);
      t.fault.NoFault? ==> Stories(c, t) && AllContinue(c, s, TransmitStep(p), t)
  {
    hide TypeSound, Sound, Stories, Once, EndedOnce, Continues, Types, Kept, MessagesExact, RequestsExact, Owned,
         Dispatch, Gone, WatchedWereSent, CheckFlowctrl, ChargedChannel;
    SoundOf(c, s);
    SoundBelow(s);
    StoriesApart(c, s);
    if Q(s.at.tx, p) == [] {
      StillStories(c, s, TransmitStep(p), s);
    } else if Live(s, Q(s.at.tx, p)[0]) {
      HeadUnsent(s, p);
      var m, t := Q(s.at.tx, p)[0], Transmit(c, s, p);
      var msg, q, popped := s.msgs[m], ReqOf(s, m), Popped(s, p);
      if !NeedsCredit(c, msg) {
        DispatchGone(c, s, popped, p.nid, m);
        GoneStories(c, s, p, t);
      } else {
        match CheckFlowctrl(c, FlowOf(s, p.nid), ChargedChannel(msg, q))
        case Granted(f) =>
          if f.entries > 0 {
            DispatchGone(c, s, ChargeFor(popped, p.nid, f, msg, q), p.nid, m);
            GoneStories(c, s, p, t);
          } else {
            StillStories(c, s, TransmitStep(p), t);
          }
        case Refused(f) => StillStories(c, s, TransmitStep(p), t);
        case NegativeCredit =>
      }
    }
  }

  // ---------------------------------------------------------------- runs

  lemma NextStories(c: Config, s: State, step: Step)
    requires StorySound(c, s)
    ensures var t := Next(c, s, step);
      StorySound(c, t) && (t.fault.NoFault? ==> s.fault.NoFault? && AllContinue(c, s, step, t))
  {
    hide OnceSound, Stories, Issue, Transmit, Deliver, Timeout, ConsumeHeader, Continues;
    NextOnce(c, s, step);
    if !s.fault.NoFault? {
      NextHalts(c, s, step);
    } else {
      match step
      case IssueStep(k) => IssueStories(c, s, k);
      case TransmitStep(p) => TransmitStories(c, s, p);
      case DeliverStep(m, x) => if m in s.at.net { DeliverStories(c, s, m, x); } else { NothingDone(c, s, step); }
      case TimeoutStep(n) => if Q(s.at.e2e, n) != [] { TimeoutStories(c, s, n); } else { NothingDone(c, s, step); }
      case HeaderStep(m) => if m in s.at.uh { ConsumeStories(c, s, m); } else { NothingDone(c, s, step); }
    }
  }

  lemma NothingDone(c: Config, s: State, step: Step)
    requires StorySound(c, s) && s.fault.NoFault?
    requires match step case DeliverStep(m, _) => m !in s.at.net case TimeoutStep(n) => Q(s.at.e2e, n) == []
             case HeaderStep(m) => m !in s.at.uh case _ => false
    ensures Next(c, s, step) == s && AllContinue(c, s, step, s)
  {
    assert Next(c, s, step) == s;
    hide OnceSound, Stories, Next, AllContinue;
    StillStories(c, s, step, s);
  }

  lemma NextHalts(c: Config, s: State, step: Step)
    requires !s.fault.NoFault?
    ensures !Next(c, s, step).fault.NoFault?
  {
  }

  lemma {:induction false} RunStories(c: Config, steps: seq<Step>)
    ensures StorySound(c, Run(c, steps))
  {
    hide OnceSound, Stories;
    if steps == [] {
      RunOnce(c, steps);
      InitStories(c);
    } else {
      RunStories(c, steps[..|steps| - 1]);
      NextStories(c, Run(c, steps[..|steps| - 1]), steps[|steps| - 1]);
    }
  }

  lemma InitStories(c: Config)
    ensures Stories(c, INIT)
  {
  }

  // ---------------------------------------------------------------- what the initiator is told

  /** Step `i` of the run settles request `r`. */
  ghost predicate SettledAt(c: Config, steps: seq<Step>, i: nat, r: ReqId, cause: Cause)
    requires i < |steps|
  {
    SettledBy(c, Run(c, steps[..i]), steps[i], r, cause)
  }

  /** Everything the initiator of a request has seen, in every run. Up to RECEIVED it is SEND at most, once a buffered
      request message has left. From then on it is what one message called for when it was delivered: the request
      message in quick mode, a Portals ACK, a response, or an E2E ACK. Nothing else is ever added. */
  lemma {:induction false} InitiatorStory(c: Config, steps: seq<Step>, r: ReqId)
    requires Run(c, steps).fault.NoFault? && Issued(Run(c, steps), r)
    ensures var s, q := Run(c, steps), RecordOf(Run(c, steps), r);
      if Rank(q.phase) <= Rank(Received)
      then q.initiatorLog == if r in s.sent && Buffered(q.command) then SendsOf(q.command) else []
      else exists i, cause {:trigger SettledAt(c, steps, i, r, cause)} ::
        && 0 <= i < |steps| && SettledAt(c, steps, i, r, cause) && q.initiatorLog == Told(q.command, q.matched, cause)
        && (cause.ByResponse? <==> q.command.typ.GetReq? || q.command.typ.FetchAtomicReq?)
  {
    hide OnceSound, Run, Stories, Told, Causes, SettledBy;
    var t := Run(c, steps);
    RunStories(c, steps);
    RecordOfStory(c, t, r);
    if Rank(RecordOf(t, r).phase) > Rank(Received) {
      var n := |steps| - 1;
      LastStep(c, steps);
      var prefix, s := steps[..n], Run(c, steps[..n]);
      RunStories(c, prefix);
      NextStories(c, s, steps[n]);
      assert Begins(s, t, r);
      assert Continues(c, s, steps[n], t, r);
      if Rank(RecordOf(s, r).phase) <= Rank(Received) {
        var cause :| SettledBy(c, s, steps[n], r, cause)
                     && RecordOf(t, r).initiatorLog == Told(RecordOf(t, r).command, RecordOf(t, r).matched, cause);
        SettledKind(c, s, steps[n], r, cause);
        assert SettledAt(c, steps, n, r, cause);
      } else {
        InitiatorStory(c, prefix, r);
        var i, cause :| 0 <= i < |prefix| && SettledAt(c, prefix, i, r, cause)
                        && RecordOf(s, r).initiatorLog == Told(RecordOf(s, r).command, RecordOf(s, r).matched, cause)
                        && (cause.ByResponse? <==> !PutLike(RecordOf(s, r).command.typ));
        assert prefix[..i] == steps[..i];
        assert SettledAt(c, steps, i, r, cause);
      }
    }
  }

  lemma SettledKind(c: Config, s: State, step: Step, r: ReqId, cause: Cause)
    requires SettledBy(c, s, step, r, cause)
    ensures r in s.reqs && (cause.ByResponse? <==> !PutLike(s.reqs[r].command.typ))
  {
  }

  lemma LastStep(c: Config, steps: seq<Step>)
    ensures steps == [] ==> forall r :: !Issued(Run(c, steps), r)
    ensures steps != [] ==> Run(c, steps) == Next(c, Run(c, steps[..|steps| - 1]), steps[|steps| - 1])
  {
    hide Next;
  }

  /** One REPLY, with the length and offset of the match, or zeros without one. */
  function ReplyFor(k: Command, fail: NiFail, x: Option<Match>): seq<InitiatorEvent> {
    (if k.typ.FetchAtomicReq? && k.length <= 64 then SendsOf(k) else [])
    + (if k.ctReply then [ReplyCount] else [])
    + [match x
       case Some(Matched(_, _, _, _, mlength, offset)) => ReplyEvent(fail, mlength, offset)
       case _ => ReplyEvent(fail, 0, 0)]
  }

  lemma ResponseTells(k: Command, x: Option<Match>, fail: NiFail)
    requires k.typ.GetReq? || k.typ.FetchAtomicReq?
    ensures Told(k, x, ByResponse(fail)) == ReplyFor(k, fail, x)
  {
    hide SendsOf;
  }

  /** A Get or FetchAtomic past RECEIVED shows one REPLY, with the outcome of the first response that was delivered and
      the length and offset of its match. A FetchAtomic of at most 64 bytes has shown SEND before. */
  lemma FirstResponseTells(c: Config, steps: seq<Step>, r: ReqId)
    requires Run(c, steps).fault.NoFault? && Issued(Run(c, steps), r)
    requires var q := RecordOf(Run(c, steps), r);
      (q.command.typ.GetReq? || q.command.typ.FetchAtomicReq?) && Rank(q.phase) > Rank(Received)
    ensures var q := RecordOf(Run(c, steps), r);
      exists i, f {:trigger SettledAt(c, steps, i, r, ByResponse(f))} ::
        && 0 <= i < |steps| && SettledAt(c, steps, i, r, ByResponse(f))
        && q.initiatorLog == ReplyFor(q.command, f, q.matched)
  {
    var q := RecordOf(Run(c, steps), r);
    hide Run, SettledAt, Told, ReplyFor;
    InitiatorStory(c, steps, r);
    var i, cause :| 0 <= i < |steps| && SettledAt(c, steps, i, r, cause) && cause.ByResponse?
                    && q.initiatorLog == Told(q.command, q.matched, cause);
    ResponseTells(q.command, q.matched, cause.fail);
    assert SettledAt(c, steps, i, r, ByResponse(cause.fail));
  }

  // ---------------------------------------------------------------- what happens at the target

  /** Step `i` of the run sends a response of request `r`. */
  ghost predicate LeftAt(c: Config, steps: seq<Step>, i: nat, r: ReqId)
    requires i < |steps|
  {
    ResponseLeaves(Run(c, steps[..i]), steps[i], Run(c, steps[..i + 1]), r)
  }

  ghost predicate ResponseLeft(c: Config, steps: seq<Step>, r: ReqId) {
    exists i {:trigger LeftAt(c, steps, i, r)} :: 0 <= i < |steps| && LeftAt(c, steps, i, r)
  }

  lemma LeftExtends(c: Config, steps: seq<Step>, r: ReqId)
    requires steps != []
    ensures var n := |steps| - 1;
      ResponseLeft(c, steps, r) <==>
        ResponseLeft(c, steps[..n], r) || ResponseLeaves(Run(c, steps[..n]), steps[n], Run(c, steps), r)
  {
    hide Run, ResponseLeaves;
    var n := |steps| - 1;
    forall i | 0 <= i < n ensures LeftAt(c, steps[..n], i, r) == LeftAt(c, steps, i, r) {
      assert steps[..n][..i] == steps[..i] && steps[..n][..i + 1] == steps[..i + 1];
    }
    assert steps[..n + 1] == steps;
    assert LeftAt(c, steps, n, r) == ResponseLeaves(Run(c, steps[..n]), steps[n], Run(c, steps), r);
  }

  /** With E2E off the operation of a Get or FetchAtomic is over once a response has left. */
  lemma {:induction false} OverOnceLeft(c: Config, steps: seq<Step>, r: ReqId)
    requires c.e2eOff && Run(c, steps).fault.NoFault?
    ensures var s := Run(c, steps);
      && (ResponseLeft(c, steps, r) ==> Issued(s, r))
      && (Issued(s, r) && !PutLike(RecordOf(s, r).command.typ) ==>
            (RecordOf(s, r).getIssued <==> ResponseLeft(c, steps, r)))
  {
    hide OnceSound, Stories, Run, LeftAt, ResponseLeft, Told, SettledBy, Proceeds;
    LastStep(c, steps);
    if steps == [] {
      NothingLeft(c, r);
    } else {
      var n := |steps| - 1;
      var s, t := Run(c, steps[..n]), Run(c, steps);
      RunStories(c, steps[..n]);
      NextStories(c, s, steps[n]);
      OverOnceLeft(c, steps[..n], r);
      LeftExtends(c, steps, r);
      if Issued(s, r) {
        assert Continues(c, s, steps[n], t, r);
        SameCommand(c, s, steps[n], t, r);
      } else if Issued(t, r) {
        assert Begins(s, t, r);
      }
    }
  }

  lemma NothingLeft(c: Config, r: ReqId)
    ensures !ResponseLeft(c, [], r)
  {
  }

  lemma SameCommand(c: Config, s: State, step: Step, t: State, r: ReqId)
    requires Issued(s, r) && Continues(c, s, step, t, r)
    ensures RecordOf(t, r).command == RecordOf(s, r).command
  {
    hide Told, SettledBy;
  }

  /** The operation of a request is over for its target: a Put or Atomic at once, a Get or FetchAtomic when its E2E
      exchange is FINISHED, or with E2E off when its response has left. */
  ghost predicate IsOver(c: Config, steps: seq<Step>, r: ReqId, q: Req) {
    match q.command.typ
    case PutReq => true
    case AtomicReq => true
    case _ => if c.e2eOff then ResponseLeft(c, steps, r) else q.phase.Finished?
  }

  /** Everything a request does at its target, in every run: nothing before it is matched, then the effects of its
      match, and later one event: the direct one of a priority entry that is not silent, exactly when the operation is
      over, or OVERFLOW for an overflow entry, exactly when its header is no longer among the unexpected ones. */
  lemma TargetStory(c: Config, steps: seq<Step>, r: ReqId)
    requires Run(c, steps).fault.NoFault? && Issued(Run(c, steps), r)
    ensures var s, q := Run(c, steps), RecordOf(Run(c, steps), r);
      match q.matched
      case None => q.targetLog == [] && q.header.None?
      case Some(x) =>
        && x.Matched? && !q.phase.Created? && (q.header.Some? <==> x.list.Overflow?)
        && q.targetLog == MatchEvents(x)
             + (match x.list
                case Priority => if IsOver(c, steps, r, q) && !x.silent then [DirectEvent] else []
                case Overflow => if q.header.value in s.at.uh then [] else [OverflowEvent])
  {
    hide OnceSound, Run, Stories, ResponseLeft, MatchEvents, SendTold;
    RunStories(c, steps);
    RecordOfStory(c, Run(c, steps), r);
    if c.e2eOff { OverOnceLeft(c, steps, r); }
  }
}
