/** What steps leave alone: frames of the handlers, of a message that leaves, and of destructors, as far as
    credits and events depend on them. */
module NicFrames {
  import opened Wire
  import opened Queues
  import opened FlowControl
  import opened Nic
  import opened NicRefs
  import opened NicParking
  import opened NicRefRuns
  import opened NicTypes

  // ---------------------------------------------------------------- messages and requests

  ghost predicate SameTale(msgs: Msgs, msgs': Msgs, sent: set<MsgId>, m: MsgId) {
    && m in msgs && m in msgs' && msgs'[m].req == msgs[m].req && msgs'[m].typ == msgs[m].typ
    && msgs'[m].answers == msgs[m].answers && msgs'[m].origin == msgs[m].origin
    && (if m in sent then msgs'[m].retry >= msgs[m].retry else msgs'[m].retry == msgs[m].retry)
  }

  predicate SameStory(q: Req, q': Req) {
    q'.command == q.command && q'.phase == q.phase && q'.token == q.token
  }

  ghost predicate WatchedWereSent(at: Places, sent: set<MsgId>) {
    forall n, m {:trigger Count(at.e2e, n, m)} :: Count(at.e2e, n, m) > 0 ==> m in sent
  }

  lemma WatchedKept(at: Places, at': Places, sent: set<MsgId>)
    requires WatchedWereSent(at, sent) && at'.e2e == at.e2e
    ensures WatchedWereSent(at', sent)
  {
    forall n, m | Count(at'.e2e, n, m) > 0 ensures m in sent { assert Count(at.e2e, n, m) > 0; }
  }

  ghost predicate SameContents(msgs: Msgs, msgs': Msgs) {
    forall k {:trigger k in msgs} {:trigger msgs'[k]} :: k in msgs ==> k in msgs' && SameButCount(msgs[k], msgs'[k])
  }

  lemma ReferenceContents(msgs: Msgs, m: MsgId)
    requires m in msgs
    ensures SameContents(msgs, Reference(msgs, m)) && Reference(msgs, m).Keys == msgs.Keys
    ensures SameContents(msgs, msgs)
  {
  }

  lemma NewContents(msgs: Msgs, m: MsgId, msg: Msg)
    requires m !in msgs
    ensures SameContents(msgs, msgs[m := msg])
  {
  }

  lemma ContentsTwice(msgs: Msgs, msgs': Msgs, msgs'': Msgs)
    requires SameContents(msgs, msgs') && SameContents(msgs', msgs'')
    ensures SameContents(msgs, msgs'')
  {
  }

  lemma SameReq(a: Msg, b: Msg)
    ensures SameButCount(a, b) ==> b.req == a.req
  {
  }

  // ---------------------------------------------------------------- handlers

  lemma TameSends(s: State, m: MsgId, a: Reaction)
    requires Live(s, m) && Tame(s, m, a)
    ensures a.Reaction? && a.sends.Some? ==> !IsRequest(a.sends.value.typ)
  {
  }

  lemma ReleaseTale(c: Config, s: State, n: Nid, ch: Channel, id: ChargeId)
    requires !c.e2eOff && Releasable(c, FlowOf(s, n), ch)
    ensures var t := ReleaseAt(c, s, n, ch, id);
      && t.msgs == s.msgs && t.reqs == s.reqs && t.next == s.next && t.fault == s.fault && t.sent == s.sent
      && t.at.net == s.at.net && t.at.e2e == s.at.e2e && t.at.uh == s.at.uh
      && t.open == s.open - {id} && t.flows == s.flows[n := ReleaseEntry(c, FlowOf(s, n), ch).flow]
      && t.cq == s.cq && t.resent == s.resent && t.ended == s.ended
  {
  }

  lemma AnswerTale(s: State, m: MsgId, q: Req, reply: Reply)
    requires Live(s, m) && s.next !in s.msgs
    ensures var t := Answer(s, m, q, reply);
      && SameContents(s.msgs, t.msgs) && t.msgs.Keys == s.msgs.Keys + {s.next} && t.fault == s.fault && t.sent == s.sent
      && t.at.net == s.at.net && t.at.e2e == s.at.e2e && t.open == s.open && t.flows == s.flows
      && t.reqs == s.reqs[s.msgs[m].req := q.(token := s.next, msgRefs := q.msgRefs + 1)]
      && t.cq == s.cq && t.resent == s.resent && t.next == s.next + 1 && t.ended == s.ended
  {
    hide SameContents, Push, Home;
    ReferenceContents(s.msgs, m);
    var msgs' := if reply.typ.PtlAck? || reply.typ.E2eAck? then Reference(s.msgs, m) else s.msgs;
    NewContents(msgs', s.next, Answer(s, m, q, reply).msgs[s.next]);
    ContentsTwice(s.msgs, msgs', Answer(s, m, q, reply).msgs);
  }

  lemma AnswerSent(s: State, m: MsgId, q: Req, reply: Reply)
    requires Live(s, m) && s.next !in s.msgs
    ensures SameButCount(Back(s, m, reply), Answer(s, m, q, reply).msgs[s.next])
  {
    hide Push;
  }

  /** Everything credits depend on, after a reaction. */
  ghost predicate Tale(s: State, m: MsgId, a: Reaction, u: State)
    requires Live(s, m) && a.Reaction?
  {
    && SameContents(s.msgs, u.msgs) && u.fault == s.fault && u.sent == s.sent
    && u.at.net == s.at.net && u.at.e2e == s.at.e2e && u.ended == s.ended
    && u.next == s.next + (if a.sends.Some? then 1 else 0)
    && u.open == (if a.gives.Some? then s.open - {a.gives.value.id} else s.open)
    && s.msgs[m].req in u.reqs && u.reqs == s.reqs[s.msgs[m].req := u.reqs[s.msgs[m].req]]
    && var q := u.reqs[s.msgs[m].req];
       && q.command == a.req.command && q.phase == a.req.phase
       && (if a.sends.Some?
           then u.msgs.Keys == s.msgs.Keys + {s.next} && q.token == s.next
                && SameButCount(Back(s, m, a.sends.value), u.msgs[s.next])
           else u.msgs.Keys == s.msgs.Keys && q.token == a.req.token)
  }

  lemma SameBack(s: State, s': State, m: MsgId, reply: Reply)
    requires m in s.msgs && SameContents(s.msgs, s'.msgs) && s'.next == s.next
    ensures Back(s', m, reply) == Back(s, m, reply)
  {
  }

  lemma ApplyTale(c: Config, s: State, m: MsgId, a: Reaction)
    requires Live(s, m) && a.Reaction? && s.next !in s.msgs
    requires a.gives.Some? ==>
      !c.e2eOff && Releasable(c, FlowOf(s, a.gives.value.node), a.gives.value.channel)
    ensures Tale(s, m, a, Apply(c, s, m, a))
    ensures Apply(c, s, m, a).flows ==
      if a.gives.None? then s.flows
      else s.flows[a.gives.value.node := ReleaseEntry(c, FlowOf(s, a.gives.value.node), a.gives.value.channel).flow]
  {
    hide Answer, ReleaseAt, ReleaseEntry, Releasable, SameContents, SameButCount;
    ReferenceContents(s.msgs, m);
    var s1 := if a.keeps then PushHeader(s, m) else s;
    var s2 := s1;
    if a.gives.Some? {
      s2 := ReleaseAt(c, s1, a.gives.value.node, a.gives.value.channel, a.gives.value.id);
      ReleaseTale(c, s1, a.gives.value.node, a.gives.value.channel, a.gives.value.id);
    }
    if a.sends.Some? {
      AnswerTale(s2, m, a.req, a.sends.value);
      AnswerSent(s2, m, a.req, a.sends.value);
      SameBack(s, s2, m, a.sends.value);
      ContentsTwice(s.msgs, s2.msgs, Apply(c, s, m, a).msgs);
    }
  }

  /** The reaction as far as it takes effect: with E2E off nothing is given back. */
  function Effective(c: Config, a: Reaction): Reaction {
    if c.e2eOff && a.Reaction? then a.(gives := None) else a
  }

  lemma ApplyEffective(c: Config, s: State, m: MsgId, a: Reaction)
    requires Live(s, m) && a.Reaction? && s.next !in s.msgs && Apply(c, s, m, a).fault.NoFault?
    ensures Tale(s, m, Effective(c, a), Apply(c, s, m, a))
  {
    hide Answer, PushHeader, Tale;
    assert Apply(c, s, m, a) == Apply(c, s, m, Effective(c, a)) by { hide ReleaseEntry; }
    hide Apply;
    if !c.e2eOff { ApplyFrame(c, s, m, a); }
    ApplyTale(c, s, m, Effective(c, a));
  }

  /** A give-back that does not abort was possible. */
  lemma ApplyFrame(c: Config, s: State, m: MsgId, a: Reaction)
    requires m in s.msgs && a.Reaction? && !c.e2eOff
    ensures Apply(c, s, m, a).next >= s.next
    ensures Apply(c, s, m, a).fault.NoFault? && a.gives.Some? ==>
      Releasable(c, FlowOf(s, a.gives.value.node), a.gives.value.channel)
  {
    hide ReleaseAt, Answer, Releasable, PushHeader;
    var s1 := if a.keeps then PushHeader(s, m) else s;
    var s2 := s1;
    if a.gives.Some? {
      s2 := ReleaseAt(c, s1, a.gives.value.node, a.gives.value.channel, a.gives.value.id);
      ReleaseFlows(c, s1, a.gives.value.node, a.gives.value.channel, a.gives.value.id);
    }
  }

  lemma TaleRest(s: State, m: MsgId, a: Reaction, u: State)
    requires Live(s, m) && a.Reaction? && Tale(s, m, a, u)
    ensures u.sent == s.sent && u.at.net == s.at.net && u.at.e2e == s.at.e2e && u.fault == s.fault
    ensures u.ended == s.ended && u.reqs.Keys == s.reqs.Keys && u.next >= s.next
    ensures u.open == if a.gives.Some? then s.open - {a.gives.value.id} else s.open
    ensures forall r {:trigger u.reqs[r]} :: r in u.reqs && r != s.msgs[m].req ==> u.reqs[r] == s.reqs[r]
    ensures u.reqs[s.msgs[m].req].command == a.req.command && u.reqs[s.msgs[m].req].phase == a.req.phase
  {
  }

  lemma TaleMsgs(s: State, m: MsgId, a: Reaction, u: State, k: MsgId)
    requires Live(s, m) && a.Reaction? && Tale(s, m, a, u) && k in u.msgs
    ensures if k in s.msgs then SameButCount(s.msgs[k], u.msgs[k])
            else a.sends.Some? && k == s.next && SameButCount(Back(s, m, a.sends.value), u.msgs[k])
  {
  }

  // ---------------------------------------------------------------- messages that leave

  lemma Launched(c: Config, s: State, n: Nid, m: MsgId)
    requires Live(s, m)
    ensures var t := Dispatch(c, s, n, m);
      && t.flows == s.flows && t.open == s.open && t.ended == s.ended && t.sent == s.sent + {m}
      && t.at.net == s.at.net + multiset{m}
      && t.msgs.Keys == s.msgs.Keys && t.reqs.Keys == s.reqs.Keys && t.fault == s.fault
      && (forall k {:trigger t.msgs[k]} :: k in s.msgs ==> SameButCount(s.msgs[k], t.msgs[k]))
      && (forall r {:trigger t.reqs[r]} :: r in s.reqs ==> SameStory(s.reqs[r], t.reqs[r]))
  {
  }

  lemma LaunchWatched(c: Config, s: State, n: Nid, m: MsgId)
    requires Live(s, m) && WatchedWereSent(s.at, s.sent)
    ensures var t := Dispatch(c, s, n, m); WatchedWereSent(t.at, t.sent)
  {
    var t := Dispatch(c, s, n, m);
    PushCount(s.at.e2e, n, m);
    forall k, i | Count(t.at.e2e, k, i) > 0 ensures i in t.sent { assert Count(s.at.e2e, k, i) > 0 || i == m; }
  }

  lemma HeadUnsent(s: State, p: Port)
    requires Parking(s) && Q(s.at.tx, p) != []
    ensures var m := Q(s.at.tx, p)[0]; m !in s.sent && m in s.msgs && s.msgs[m].initiator == p.nid
  {
    PopCount(s.at.tx, p);
    assert Waiting(s.at, p, Q(s.at.tx, p)[0]) > 0;
  }

  lemma MessageTyped(c: Config, s: State, m: MsgId)
    requires Types(c, s) && Owned(s.msgs, s.reqs, s.next) && Live(s, m)
    ensures Typed(c, s.msgs, s.msgs[m], ReqOf(s, m).command) && s.msgs[m].service == ReqOf(s, m).command.service
  {
    assert TypedAt(c, s.msgs, s.reqs, m);
  }

  // ---------------------------------------------------------------- what sound states give

  /** Still waiting to leave, or in flight. */
  predicate Undelivered(at: Places, sent: set<MsgId>, m: MsgId) {
    m !in sent || m in at.net
  }

  lemma UndeliveredHeld(s: State, m: MsgId)
    requires Parking(s) && m in s.msgs && Undelivered(s.at, s.sent, m)
    ensures HeldBy(s.at, m, s.msgs[m]) > 0
  {
    if m !in s.sent { assert Waiting(s.at, Home(s.msgs[m]), m) == 1; }
  }

  lemma NeverSent(s: State)
    requires Parking(s)
    ensures s.next !in s.sent
  {
  }

  lemma TakenLive(s: State, m: MsgId)
    requires Taken(s, m)
    ensures Live(s, m) && Owned(s.msgs, s.reqs, s.next)
  {
  }

  lemma RequestsBelow(s: State, m: MsgId)
    requires Taken(s, m)
    ensures Live(s, m) && s.msgs[m].req < s.next
  {
    hide MessagesExact, Kept;
  }

  lemma OwnedOf(s: State)
    requires Sound(s) && s.fault.NoFault?
    ensures Owned(s.msgs, s.reqs, s.next)
  {
    hide MessagesExact, RequestsExact, Kept;
  }

  // ---------------------------------------------------------------- runs

  lemma RunExtends(c: Config, steps: seq<Step>, n: nat)
    requires n < |steps|
    ensures Run(c, steps[..n + 1]) == Next(c, Run(c, steps[..n]), steps[n])
  {
    hide Next;
    assert steps[..n + 1][..n] == steps[..n];
  }
}
