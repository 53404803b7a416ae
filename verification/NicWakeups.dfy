/** No lost wake-up: a message waits for credit only while one of its counters is exhausted, in every run.
    With conserved credits, the whole capacity of that counter is then out on unfinished requests, the give-back
    of any of which resumes the message, or lost on requests that were given up unanswered. */
module NicWakeups {
  import opened Wire
  import opened Queues
  import opened FlowControl
  import opened Nic
  import opened NicRefs
  import opened NicParking
  import opened NicRefRuns
  import opened NicTypes
  import opened NicLedger
  import opened NicFrames
  import opened NicCreditRuns

  ghost predicate StarvedAt(c: Config, msgs: Msgs, reqs: Reqs, flows: map<Nid, Flow>, p: Port, m: MsgId) {
    && m in msgs && msgs[m].req in reqs && VnOf(msgs[m]) == p.vn
    && Exhausted(c, FlowAt(flows, p.nid), ChargedChannel(msgs[m], reqs[msgs[m].req]))
  }

  ghost predicate Starved(c: Config, s: State) {
    forall p, m {:trigger Count(s.at.parked, p, m)} ::
      Count(s.at.parked, p, m) > 0 ==> StarvedAt(c, s.msgs, s.reqs, s.flows, p, m)
  }

  ghost predicate WakeSound(c: Config, s: State) {
    TypeSound(c, s) && (s.fault.NoFault? ==> Starved(c, s))
  }

  // ---------------------------------------------------------------- frames

  /** Messages and requests keep everything a counter key is built from. */
  ghost predicate SameKeys(msgs: Msgs, msgs': Msgs, reqs: Reqs, reqs': Reqs, m: MsgId) {
    m in msgs && msgs[m].req in reqs ==>
      && m in msgs' && msgs'[m].target == msgs[m].target && msgs'[m].typ == msgs[m].typ
      && msgs'[m].service == msgs[m].service
      && msgs'[m].req == msgs[m].req && msgs[m].req in reqs' && reqs'[msgs[m].req].command == reqs[msgs[m].req].command
  }

  lemma StarvedKept(c: Config, s: State, t: State)
    requires Starved(c, s) && t.flows == s.flows
    requires forall p, m {:trigger Count(t.at.parked, p, m)} :: Count(t.at.parked, p, m) <= Count(s.at.parked, p, m)
    requires forall p, m {:trigger Count(s.at.parked, p, m)} ::
      Count(s.at.parked, p, m) > 0 ==> SameKeys(s.msgs, t.msgs, s.reqs, t.reqs, m)
    ensures Starved(c, t)
  {
    forall p, m | Count(t.at.parked, p, m) > 0 ensures StarvedAt(c, t.msgs, t.reqs, t.flows, p, m) {
      assert StarvedAt(c, s.msgs, s.reqs, s.flows, p, m) && SameKeys(s.msgs, t.msgs, s.reqs, t.reqs, m);
    }
  }

  lemma ParkedSurvive(u: State, t: State, p: Port, m: MsgId)
    requires Parking(u) && Shrunk(u.msgs, t.msgs, u.reqs, t.reqs, u.at) && RefInv(t)
    requires Count(u.at.parked, p, m) > 0
    ensures SameKeys(u.msgs, t.msgs, u.reqs, t.reqs, m)
  {
    assert Waiting(u.at, p, m) > 0;
    assert Survives(u.msgs, t.msgs, u.at, m);
    hide MessagesExact, RequestsExact;
  }

  lemma ShrunkStarved(c: Config, u: State, t: State)
    requires Starved(c, u) && Parking(u) && Shrunk(u.msgs, t.msgs, u.reqs, t.reqs, u.at) && SameRest(u, t) && RefInv(t)
    ensures Starved(c, t)
  {
    hide Starved, Shrunk, Kept, RefInv, SameKeys;
    forall p, m | Count(u.at.parked, p, m) > 0 ensures SameKeys(u.msgs, t.msgs, u.reqs, t.reqs, m) {
      ParkedSurvive(u, t, p, m);
    }
    StarvedKept(c, u, t);
  }

  /** A credit given back on `ch` leaves the counters of every other virtual network alone. */
  lemma OtherVnExhausted(c: Config, f: Flow, ch: Channel, other: Channel)
    requires Releasable(c, f, ch) && Exhausted(c, f, other) && other.vn != ch.vn
    ensures Exhausted(c, ReleaseEntry(c, f, ch).flow, other)
  {
  }

  /** A successful give-back empties the deque of its own port and no other. */
  lemma ReleaseResumes(c: Config, s: State, n: Nid, ch: Channel, id: ChargeId)
    requires !c.e2eOff && s.fault.NoFault? && ReleaseAt(c, s, n, ch, id).fault.NoFault?
    ensures var t := ReleaseAt(c, s, n, ch, id);
      && Releasable(c, FlowOf(s, n), ch) && t.msgs == s.msgs && t.reqs == s.reqs
      && t.flows == s.flows[n := ReleaseEntry(c, FlowOf(s, n), ch).flow]
      && (forall p, m {:trigger Count(t.at.parked, p, m)} ::
            Count(t.at.parked, p, m) == if Enabled(c) && p == Port(n, ch.vn) then 0 else Count(s.at.parked, p, m))
  {
    ReleasePlaces(c, s, n, ch, id);
    ReleaseFlows(c, s, n, ch, id);
    hide ReleaseAt, ReleaseEntry, Releasable, Splice, Clear;
    SpliceCount(s.at.tx, s.at.parked, Port(n, ch.vn));
  }

  /** Some layer of flow control is in use. */
  predicate Enabled(c: Config) {
    c.maxToTarget > 0 || c.maxToProcess > 0
  }

  lemma ReleaseStarved(c: Config, s: State, n: Nid, ch: Channel, id: ChargeId)
    requires Starved(c, s)
    ensures var t := ReleaseAt(c, s, n, ch, id); s.fault.NoFault? && t.fault.NoFault? ==> Starved(c, t)
  {
    var t := ReleaseAt(c, s, n, ch, id);
    if s.fault.NoFault? && t.fault.NoFault? && !c.e2eOff {
      ReleaseResumes(c, s, n, ch, id);
      hide ReleaseEntry, Releasable, Splice, Clear, ChargedChannel, ReleaseAt;
      forall p, m | Count(t.at.parked, p, m) > 0 ensures StarvedAt(c, t.msgs, t.reqs, t.flows, p, m) {
        assert Count(s.at.parked, p, m) > 0 && StarvedAt(c, s.msgs, s.reqs, s.flows, p, m);
        if p.nid == n { OtherVnExhausted(c, FlowOf(s, n), ch, ChargedChannel(s.msgs[m], ReqOf(s, m))); }
      }
    }
  }

  /** A granted check takes nothing from a counter that is already exhausted. */
  lemma StillExhausted(c: Config, f: Flow, ch: Channel, other: Channel)
    requires !CheckFlowctrl(c, f, ch).NegativeCredit? && Exhausted(c, f, other)
    ensures Exhausted(c, CheckFlowctrl(c, f, ch).flow, other)
  {
  }

  lemma CheckStarved(c: Config, s: State, n: Nid, ch: Channel, t: State, f: Flow)
    requires Starved(c, s) && !CheckFlowctrl(c, FlowOf(s, n), ch).NegativeCredit?
    requires t.msgs == s.msgs && t.reqs == s.reqs && t.at.parked == s.at.parked
    requires f.nodeCounts == CheckFlowctrl(c, FlowOf(s, n), ch).flow.nodeCounts
    requires f.processCounts == CheckFlowctrl(c, FlowOf(s, n), ch).flow.processCounts
    requires t.flows == s.flows[n := f]
    ensures Starved(c, t)
  {
    hide CheckFlowctrl, ChargedChannel;
    forall p, m | Count(t.at.parked, p, m) > 0 ensures StarvedAt(c, t.msgs, t.reqs, t.flows, p, m) {
      assert Count(s.at.parked, p, m) > 0 && StarvedAt(c, s.msgs, s.reqs, s.flows, p, m);
      if p.nid == n { StillExhausted(c, FlowOf(s, n), ch, ChargedChannel(s.msgs[m], ReqOf(s, m))); }
    }
  }

  // ---------------------------------------------------------------- steps

  /** More messages and requests, the old ones with the same contents. */
  lemma StarvedGrown(c: Config, s: State, t: State)
    requires Starved(c, s) && t.flows == s.flows && t.at.parked == s.at.parked && SameContents(s.msgs, t.msgs)
    requires forall r {:trigger t.reqs[r]} {:trigger r in s.reqs} ::
      r in s.reqs ==> r in t.reqs && t.reqs[r].command == s.reqs[r].command
    ensures Starved(c, t)
  {
    forall p, m | Count(t.at.parked, p, m) > 0 ensures StarvedAt(c, t.msgs, t.reqs, t.flows, p, m) {
      assert Count(s.at.parked, p, m) > 0 && StarvedAt(c, s.msgs, s.reqs, s.flows, p, m);
      assert SameButCount(s.msgs[m], t.msgs[m]) && t.msgs[m].req in t.reqs;
    }
  }

  lemma HeaderStarved(c: Config, s: State, m: MsgId)
    requires Starved(c, s) && m in s.msgs
    ensures Starved(c, PushHeader(s, m))
  {
    hide Starved, SameContents;
    ReferenceContents(s.msgs, m);
    StarvedGrown(c, s, PushHeader(s, m));
  }

  lemma AnswerStarved(c: Config, s: State, m: MsgId, q: Req, reply: Reply)
    requires Starved(c, s) && Live(s, m) && s.next !in s.msgs && q.command == ReqOf(s, m).command
    ensures Starved(c, Answer(s, m, q, reply))
  {
    AnswerTale(s, m, q, reply);
    hide Starved, SameContents, Answer;
    StarvedGrown(c, s, Answer(s, m, q, reply));
  }

  lemma WriteStarved(c: Config, s: State, r: ReqId, q: Req)
    requires Starved(c, s) && r in s.reqs && q.command == s.reqs[r].command
    ensures Starved(c, SetReq(s, r, q))
  {
    hide Starved;
    StarvedGrown(c, s, SetReq(s, r, q));
  }

  lemma AppliedStarved(c: Config, s: State, m: MsgId, a: Reaction)
    requires Starved(c, s) && Live(s, m) && s.next !in s.msgs && a.Reaction? && a.req.command == ReqOf(s, m).command
    ensures var u := Apply(c, s, m, a); s.fault.NoFault? && u.fault.NoFault? ==> Starved(c, u)
  {
    hide ReleaseAt, Starved, Answer;
    var s1 := if a.keeps then PushHeader(s, m) else s;
    if a.keeps { HeaderStarved(c, s, m); }
    var s2 := s1;
    if a.gives.Some? {
      var g := a.gives.value;
      s2 := ReleaseAt(c, s1, g.node, g.channel, g.id);
      ReleaseStarved(c, s1, g.node, g.channel, g.id);
    }
    if s.fault.NoFault? && s2.fault.NoFault? {
      if a.sends.Some? { AnswerStarved(c, s2, m, a.req, a.sends.value); }
      else { WriteStarved(c, s2, s.msgs[m].req, a.req); }
    }
  }

  lemma DeliverStarved(c: Config, s: State, m: MsgId, x: Match)
    requires WakeSound(c, s)
    ensures WakeSound(c, Deliver(c, s, m, x))
  {
    hide TypeSound, Exact, Types, React, Apply, Unref, Kept, Shrunk, Starved;
    DeliverTypes(c, s, m, x);
    if s.fault.NoFault? && m in s.at.net {
      SoundOf(c, s);
      var s1, t := Arrived(s, m), Deliver(c, s, m, x);
      DeliverParts(c, s, m, x);
      StarvedKept(c, s, s1);
      WaitingKept(s, s1);
      TypesKept(c, s, s1);
      ReactionTyped(c, s1, m, x);
      ReactionTame(c, s1, m, x);
      TameSends(s1, m, ReactionTo(c, s1, m, x));
      var u := Apply(c, s1, m, ReactionTo(c, s1, m, x));
      AppliedStarved(c, s1, m, ReactionTo(c, s1, m, x));
      ApplyParks(c, s1, m, ReactionTo(c, s1, m, x));
      if u.fault.NoFault? { ShrunkStarved(c, u, t); }
    }
  }

  lemma ConsumeStarved(c: Config, s: State, m: MsgId)
    requires WakeSound(c, s)
    ensures WakeSound(c, ConsumeHeader(s, m))
  {
    hide TypeSound, Exact, Types, Unref, Kept, Shrunk, Starved;
    ConsumeTypes(c, s, m);
    if s.fault.NoFault? && m in s.at.uh {
      SoundOf(c, s);
      var s1 := s.(at := s.at.(uh := s.at.uh - multiset{m}));
      ConsumeParts(s, m);
      WaitingKept(s, Noted(s1, m));
      StarvedGrown(c, s, Noted(s1, m));
      ShrunkStarved(c, Noted(s1, m), ConsumeHeader(s, m));
    }
  }

  lemma IssueStarved(c: Config, s: State, k: Command)
    requires WakeSound(c, s)
    ensures WakeSound(c, Issue(s, k))
  {
    hide TypeSound, Sound, Types, Kept, Starved, Push;
    IssueTypes(c, s, k);
    if s.fault.NoFault? && CqFree(s, Interface(k.src, k.srcPid)) > 0 {
      SoundOf(c, s);
      SoundFresh(s);
      StarvedGrown(c, s, Issue(s, k));
    }
  }

  lemma RetransmitStarved(c: Config, s: State, n: Nid, m: MsgId)
    requires Starved(c, s) && Live(s, m) && s.next !in s.msgs
    ensures Starved(c, Retransmit(s, n, m))
  {
    var t := Retransmit(s, n, m);
    forall p, k | Count(s.at.parked, p, k) > 0 ensures SameKeys(s.msgs, t.msgs, s.reqs, t.reqs, k) { }
    hide SameKeys;
    StarvedKept(c, s, t);
  }

  lemma TimeoutStarved(c: Config, s: State, n: Nid)
    requires WakeSound(c, s)
    ensures WakeSound(c, Timeout(c, s, n))
  {
    hide TypeSound, Exact, Types, Unref, Kept, Shrunk, Retransmit, Starved;
    TimeoutTypes(c, s, n);
    if s.fault.NoFault? && Q(s.at.e2e, n) != [] {
      SoundOf(c, s);
      var m, s1, t := Q(s.at.e2e, n)[0], Expired(s, n), Timeout(c, s, n);
      TimeoutParts(c, s, n);
      ExpiredTypes(c, s, n);
      RetryBound(c, s1, m);
      StarvedKept(c, s, s1);
      WaitingKept(s, s1);
      if Retries(c, s1.msgs[m], ReqOf(s1, m)) {
        RetransmitStarved(c, s1, n, m);
        RetransmitTaken(s1, n, m);
        ShrunkStarved(c, Retransmit(s1, n, m), t);
      } else {
        ShrunkStarved(c, s1, t);
      }
    }
  }

  lemma ParkedStarved(c: Config, s: State, p: Port, m: MsgId, f: Flow)
    requires Starved(c, s) && Live(s, m) && Q(s.at.tx, p) != [] && VnOf(s.msgs[m]) == p.vn
    requires CheckFlowctrl(c, FlowOf(s, p.nid), ChargedChannel(s.msgs[m], ReqOf(s, m))) == Refused(f)
    ensures Starved(c, Park(Popped(s, p).(flows := s.flows[p.nid := f]), p, m))
  {
    var ch := ChargedChannel(s.msgs[m], ReqOf(s, m));
    var s1 := s.(flows := s.flows[p.nid := f]);
    CheckStarved(c, s, p.nid, ch, s1, f);
    CheckMovesCredits(c, FlowOf(s, p.nid), ch);
    var u := Popped(s, p).(flows := s.flows[p.nid := f]);
    var t := Park(u, p, m);
    hide CheckFlowctrl, Exhausted, ChargedChannel, Park;
    ParkedCount(u, p, m);
    assert StarvedAt(c, t.msgs, t.reqs, t.flows, p, m);
    forall p', k | Count(t.at.parked, p', k) > 0 ensures StarvedAt(c, t.msgs, t.reqs, t.flows, p', k) {
      if p' != p || k != m {
        assert Count(s1.at.parked, p', k) > 0;
        assert StarvedAt(c, s1.msgs, s1.reqs, s1.flows, p', k);
      }
    }
  }

  lemma ParkedCount(s: State, p: Port, m: MsgId)
    ensures var t := Park(s, p, m);
      forall p', k {:trigger Count(t.at.parked, p', k)} ::
        Count(t.at.parked, p', k) > 0 ==> Count(s.at.parked, p', k) > 0 || (p' == p && k == m)
  {
    PushCount(s.at.parked, p, m);
    hide Push;
  }

  lemma SentStarved(c: Config, s: State, n: Nid, m: MsgId)
    requires Starved(c, s) && Live(s, m)
    ensures Starved(c, Dispatch(c, s, n, m))
  {
    hide Starved, Push;
    Launched(c, s, n, m);
    StarvedGrown(c, s, Dispatch(c, s, n, m));
  }

  lemma TransmitStarved(c: Config, s: State, p: Port)
    requires WakeSound(c, s)
    ensures WakeSound(c, Transmit(c, s, p))
  {
    hide TypeSound, Exact, Types, Kept, Starved, Dispatch, CheckFlowctrl, ChargedChannel;
    TransmitTypes(c, s, p);
    if s.fault.NoFault? && Q(s.at.tx, p) != [] {
      SoundOf(c, s);
      var m, popped := Q(s.at.tx, p)[0], Popped(s, p);
      HeadHome(s, p);
      if Live(s, m) {
        var msg, q := s.msgs[m], ReqOf(s, m);
        StarvedKept(c, s, popped);
        if !NeedsCredit(c, msg) {
          SentStarved(c, popped, p.nid, m);
        } else {
          match CheckFlowctrl(c, FlowOf(s, p.nid), ChargedChannel(msg, q))
          case NegativeCredit =>
          case Refused(f) => ParkedStarved(c, s, p, m, f);
          case Granted(f) =>
            if f.entries > 0 {
              var charged := ChargeFor(popped, p.nid, f, msg, q);
              CheckStarved(c, s, p.nid, ChargedChannel(msg, q), charged, f.(entries := f.entries - 1));
              SentStarved(c, charged, p.nid, m);
            }
        }
      }
    }
  }

  lemma HeadHome(s: State, p: Port)
    requires Parking(s) && Q(s.at.tx, p) != []
    ensures var m := Q(s.at.tx, p)[0]; m in s.msgs && VnOf(s.msgs[m]) == p.vn
  {
    PopCount(s.at.tx, p);
    assert Waiting(s.at, p, Q(s.at.tx, p)[0]) > 0;
  }

  lemma NextStarved(c: Config, s: State, t: Step)
    requires WakeSound(c, s)
    ensures WakeSound(c, Next(c, s, t))
  {
    hide WakeSound, Issue, Transmit, Deliver, Timeout, ConsumeHeader;
    match t
    case IssueStep(k) => IssueStarved(c, s, k);
    case TransmitStep(p) => TransmitStarved(c, s, p);
    case DeliverStep(m, x) => DeliverStarved(c, s, m, x);
    case TimeoutStep(n) => TimeoutStarved(c, s, n);
    case HeaderStep(m) => ConsumeStarved(c, s, m);
  }

  lemma {:induction false} RunStarved(c: Config, steps: seq<Step>)
    ensures WakeSound(c, Run(c, steps))
  {
    hide TypeSound;
    RunTypes(c, steps);
    if steps != [] {
      RunStarved(c, steps[..|steps| - 1]);
      NextStarved(c, Run(c, steps[..|steps| - 1]), steps[|steps| - 1]);
    }
  }

  // ---------------------------------------------------------------- theorems

  /** No lost wake-up, in any run: whatever still waits for credit has a counter at zero. */
  lemma NoLostWakeup(c: Config, steps: seq<Step>, p: Port, m: MsgId)
    requires Run(c, steps).fault.NoFault? && m in Q(Run(c, steps).at.parked, p)
    ensures var s := Run(c, steps);
      && Live(s, m) && VnOf(s.msgs[m]) == p.vn
      && Exhausted(c, FlowOf(s, p.nid), ChargedChannel(s.msgs[m], ReqOf(s, m)))
  {
    hide TypeSound;
    RunStarved(c, steps);
    CountIn(Run(c, steps).at.parked, p, m);
    assert StarvedAt(c, Run(c, steps).msgs, Run(c, steps).reqs, Run(c, steps).flows, p, m);
  }

  /** The charges on the counter that keeps messages for `ch` waiting, and how many credits it has. */
  ghost function Holders(c: Config, s: State, n: Nid, ch: Channel): set<ChargeId> {
    if c.maxToTarget > 0 && NodeFree(c, FlowOf(s, n), ch.vn, ch.peer) == 0
    then AtPeer(s.open, n, ch.vn, ch.peer) else AtChannel(s.open, n, ch)
  }

  function Capacity(c: Config, s: State, n: Nid, ch: Channel): nat {
    if c.maxToTarget > 0 && NodeFree(c, FlowOf(s, n), ch.vn, ch.peer) == 0 then c.maxToTarget else c.maxToProcess
  }

  predicate Unfinished(s: State, r: ReqId) {
    r in s.reqs && !s.reqs[r].phase.Finished?
  }

  /** In a clean run the whole capacity of the very counter a message waits for is out, and each of its credits
      is held by an unfinished request, whose give-back will resume the message, or is lost: so the message
      has a resumer unless every credit of that counter is lost. */
  lemma WaitersHaveResumers(c: Config, steps: seq<Step>, p: Port, m: MsgId)
    requires !c.e2eOff && CleanRun(c, steps) && m in Q(Run(c, steps).at.parked, p)
    ensures Run(c, steps).fault.NoFault? && Live(Run(c, steps), m)
    ensures var s := Run(c, steps);
      var ch := ChargedChannel(s.msgs[m], ReqOf(s, m));
      var ids := Holders(c, s, p.nid, ch);
      && |ids| == Capacity(c, s, p.nid, ch) > 0
      && (forall id {:trigger id in ids} :: id in ids ==>
            && id in s.open && TouchesPeer(s.open[id], p.nid, p.vn, ch.peer)
            && (Unfinished(s, id.req) || Lost(s, id.req)))
      && ((exists id {:trigger id in ids} :: id in ids && Unfinished(s, id.req))
          || (forall id {:trigger id in ids} :: id in ids ==> Lost(s, id.req)))
  {
    var s := Run(c, steps);
    CreditConservation(c, steps);
    NoLostWakeup(c, steps, p, m);
    var ch := ChargedChannel(s.msgs[m], ReqOf(s, m));
    RunCredits(c, steps);
    assert NodeBalanced(c, FlowAt(s.flows, p.nid), s.open, p.nid);
    hide Conserved, CreditSound, Run, CleanRun, ChargedChannel, Lost;
    ChannelOfPort(s.msgs[m], ReqOf(s, m));
    var ids := Holders(c, s, p.nid, ch);
    forall id | id in ids
      ensures id in s.open && TouchesPeer(s.open[id], p.nid, p.vn, ch.peer)
      ensures Unfinished(s, id.req) || Lost(s, id.req)
    {
      ChargesBelongToRequests(c, steps, id);
    }
  }

  lemma ChannelOfPort(msg: Msg, q: Req)
    ensures ChargedChannel(msg, q).vn == VnOf(msg)
  {
  }
}
