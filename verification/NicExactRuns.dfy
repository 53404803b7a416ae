/** Exactly which runs conserve credits, over all runs: a credit is given back twice just where a handler does not look
    at the state of its request before it releases. */
module NicExactRuns {
  import opened Wire
  import opened Queues
  import opened FlowControl
  import opened Nic
  import opened NicRefs
  import opened NicParking
  import opened NicRefRuns
  import opened NicTypes
  import opened NicOnce
  import opened NicLedger
  import opened NicFrames
  import opened NicCharges

  // ---------------------------------------------------------------- one step

  /** The message handled gives back a credit of its request a second time. */
  predicate SettlesAgain(s: State, m: MsgId) {
    m in s.at.net && Live(s, m) && Repays(s.msgs, s.msgs[m], ReqOf(s, m))
  }

  predicate SettlesTwice(s: State, t: Step) {
    t.DeliverStep? && SettlesAgain(s, t.msg)
  }

  ghost predicate Fine(c: Config, s: State) {
    s.fault.NoFault? && Balanced(c, s.flows, s.open)
  }

  /** One credit more, or less, on the counters of a node without a charge to match unbalances it. */
  lemma Unbalanced(c: Config, flows: map<Nid, Flow>, open: Ledger, flows': map<Nid, Flow>, n: Nid)
    requires Balanced(c, flows, open) && FlowAt(flows', n).entries != FlowAt(flows, n).entries
    ensures !Balanced(c, flows', open)
  {
    NodeEntries(c, flows, open, n);
    if Balanced(c, flows', open) { NodeEntries(c, flows', open, n); }
  }

  lemma NodeEntries(c: Config, flows: map<Nid, Flow>, open: Ledger, n: Nid)
    requires Balanced(c, flows, open)
    ensures FlowAt(flows, n).entries + |AtNode(open, n)| == MAX_E2E_ENTRIES
  {
    assert NodeBalanced(c, FlowAt(flows, n), open, n);
  }

  /** A give-back names a charge that is out, under its own key, unless the handler repays. */
  lemma GivesOpen(s: State, m: MsgId, a: Reaction)
    requires Names(s) && Live(s, m) && a.Reaction? && Orderly(s.msgs, s.msgs[m], ReqOf(s, m), a) && a.gives.Some?
    requires s.msgs[m].req in s.sent && LinkSound(s.msgs, m)
    ensures a.gives.value.id in s.open <==> !Repays(s.msgs, s.msgs[m], ReqOf(s, m))
    ensures var g := a.gives.value; g.id in s.open ==> s.open[g.id] == Charge(g.node, g.channel)
  {
    var msg, id := s.msgs[m], a.gives.value.id;
    BookedOf(s, msg.req);
    PlacedOf(s, m);
    if GivesReply(s.msgs, msg, ReqOf(s, m), a) { PlacedOf(s, msg.answers.value); }
    if id in s.open { assert KeyFits(s.reqs, s.ended, s.sent, s.open, id); }
    hide Names, ChargeOf;
  }

  lemma ReturnExact(c: Config, s: State, m: MsgId, x: Match)
    requires !c.e2eOff && NameSound(c, s) && Fine(c, s) && m in s.at.net
    ensures Live(s, m)
    ensures Fine(c, Apply(c, Arrived(s, m), m, ReactionTo(c, s, m, x))) <==> !SettlesAgain(s, m)
  {
    hide MessagesExact, RequestsExact, Owned, Kept, Types, React, Apply, Balanced, Settles, Tale, Releasable,
         ReleaseEntry, Names, Orderly, Repays;
    SoundOf(c, s);
    DeliverParts(c, s, m, x);
    DeliveryTale(c, s, m, x);
    ExactParts(Arrived(s, m), multiset{m});
    var s1, a := Arrived(s, m), ReactionTo(c, s, m, x);
    var u := Apply(c, s1, m, a);
    ApplyFrame(c, s1, m, a);
    if a.gives.None? {
      ApplyTale(c, s1, m, a);
      TaleRest(s1, m, a, u);
      GivesNothing(s.msgs, s.msgs[m], ReqOf(s, m), a);
    } else {
      var g := a.gives.value;
      GivesOpen(s, m, a);
      if g.id in s.open {
        OpenIsReleasable(c, s.flows, s.open, g.id);
        ApplyTale(c, s1, m, a);
        TaleRest(s1, m, a, u);
        ReleaseBalanced(c, s.flows, s.open, g.id);
      } else if u.fault.NoFault? {
        ApplyTale(c, s1, m, a);
        TaleRest(s1, m, a, u);
        assert u.open == s.open;
        OneEntryMore(c, FlowOf(s, g.node), g.channel);
        Unbalanced(c, s.flows, s.open, u.flows, g.node);
      }
    }
  }

  lemma GivesNothing(msgs: Msgs, msg: Msg, q: Req, a: Reaction)
    requires a.Reaction? && Orderly(msgs, msg, q, a) && a.gives.None?
    ensures !Repays(msgs, msg, q)
  {
  }

  lemma OneEntryMore(c: Config, f: Flow, ch: Channel)
    requires Releasable(c, f, ch)
    ensures ReleaseEntry(c, f, ch).flow.entries == f.entries + 1
  {
  }

  lemma DeliverExact(c: Config, s: State, m: MsgId, x: Match)
    requires !c.e2eOff && NameSound(c, s) && Fine(c, s)
    ensures Fine(c, Deliver(c, s, m, x)) <==> !SettlesAgain(s, m)
  {
    hide TypeSound, Names, React, Apply, Unref, Settles, Balanced, Repays, Exact;
    if m in s.at.net {
      SoundOf(c, s);
      DeliverParts(c, s, m, x);
      ReturnExact(c, s, m, x);
      SettlesFault(Apply(c, Arrived(s, m), m, ReactionTo(c, s, m, x)), Deliver(c, s, m, x));
    }
  }

  /** Every message that leaves charges a credit nobody has charged yet, or none. */
  lemma TransmitExact(c: Config, s: State, p: Port)
    requires !c.e2eOff && NameSound(c, s) && Fine(c, s)
    ensures Fine(c, Transmit(c, s, p))
  {
    hide TypeSound, Balanced, Dispatch, CheckFlowctrl, ChargedChannel, ChargeOf, Owned, Left, Pays, Names;
    if Q(s.at.tx, p) != [] {
      TransmitReady(c, s, p);
      var m, popped := Q(s.at.tx, p)[0], Popped(s, p);
      var msg, q := s.msgs[m], ReqOf(s, m);
      if !NeedsCredit(c, msg) {
        DispatchLeft(c, s, popped, p.nid, m);
      } else {
        var ch := ChargedChannel(msg, q);
        BalanceIsPositive(c, s.flows, s.open, p.nid, ch);
        match CheckFlowctrl(c, FlowOf(s, p.nid), ch)
        case Refused(f) => RefusalBalanced(c, s.flows, s.open, p.nid, ch);
        case Granted(f) =>
          if f.entries > 0 {
            var u := ChargeFor(popped, p.nid, f, msg, q);
            DispatchLeft(c, s, u, p.nid, m);
            KeysOf(s);
            PaysOnce(c, s, m);
            ChargeBalanced(c, s.flows, s.open, ChargeName(msg), Charge(p.nid, ch));
          }
      }
    }
  }

  lemma KeysOf(s: State)
    requires Names(s)
    ensures KeysFit(s.reqs, s.ended, s.sent, s.open)
  {
  }

  /** Timers, headers and new commands move no credit. */
  lemma OtherExact(c: Config, s: State, t: Step)
    requires TypeSound(c, s) && Fine(c, s) && !t.TransmitStep? && !t.DeliverStep?
    ensures Fine(c, Next(c, s, t))
  {
    hide Exact, Types, Unref, Kept, Shrunk, Retransmit, LinkSound, Balanced, Buried;
    SoundOf(c, s);
    match t
    case IssueStep(k) =>
    case HeaderStep(m) => if m in s.at.uh { ConsumeParts(s, m); }
    case TimeoutStep(n) =>
      if Q(s.at.e2e, n) != [] {
        var m, s1 := Q(s.at.e2e, n)[0], Expired(s, n);
        TimeoutParts(c, s, n);
        ExpiredTypes(c, s, n);
        RetryBound(c, s1, m);
        if Retries(c, s1.msgs[m], ReqOf(s1, m)) {
          RetransmitTaken(s1, n, m);
          RetransmitFrame(s1, n, m);
        }
      }
  }

  lemma RetransmitFrame(s: State, n: Nid, m: MsgId)
    requires Live(s, m)
    ensures var t := Retransmit(s, n, m); t.flows == s.flows && t.open == s.open && t.sent == s.sent
  {
  }

  /** After any run that has conserved its credits: the next step conserves them too, and does not abort, exactly if
      it does not settle twice. */
  lemma StepExact(c: Config, s: State, t: Step)
    requires !c.e2eOff && NameSound(c, s) && Fine(c, s)
    ensures Fine(c, Next(c, s, t)) <==> !SettlesTwice(s, t)
  {
    hide TypeSound, Names, Balanced, Issue, Transmit, Deliver, Timeout, ConsumeHeader, SettlesAgain;
    match t
    case TransmitStep(p) => TransmitExact(c, s, p);
    case DeliverStep(m, x) => DeliverExact(c, s, m, x);
    case _ => OtherExact(c, s, t);
  }

  // ---------------------------------------------------------------- runs

  /** The run aborts nowhere and its credits are conserved after every step. */
  ghost predicate Conserves(c: Config, steps: seq<Step>) {
    && Run(c, steps).fault.NoFault? && Conserved(c, Run(c, steps))
    && (steps == [] || Conserves(c, steps[..|steps| - 1]))
  }

  /** No reply is handled for a request that is past RECEIVED, and no E2E ACK of a request message for a request that
      is ANSWERED. */
  predicate NeverSettlesTwice(c: Config, steps: seq<Step>) {
    steps == [] ||
      (NeverSettlesTwice(c, steps[..|steps| - 1]) && !SettlesTwice(Run(c, steps[..|steps| - 1]), steps[|steps| - 1]))
  }

  /** Of all runs, exactly those conserve their credits in which no handler settles a request twice. */
  lemma {:induction false} ConservesExactly(c: Config, steps: seq<Step>)
    requires !c.e2eOff
    ensures Conserves(c, steps) <==> NeverSettlesTwice(c, steps)
  {
    hide TypeSound, Balanced, Conserved, SettlesTwice, Names;
    ConservedIsBalanced(c, Run(c, steps));
    if steps == [] {
      InitBalanced(c);
    } else {
      var before := steps[..|steps| - 1];
      ConservesExactly(c, before);
      ConservedIsBalanced(c, Run(c, before));
      if Conserves(c, before) {
        RunNames(c, before);
        StepExact(c, Run(c, before), steps[|steps| - 1]);
      }
    }
  }

  // ---------------------------------------------------------------- a request settled twice

  /** The step handles a message that gives back the credit of request `r`. */
  predicate GivesBackFor(c: Config, s: State, t: Step, r: ReqId) {
    && s.fault.NoFault? && t.DeliverStep? && t.msg in s.at.net && Live(s, t.msg)
    && var a := ReactionTo(c, s, t.msg, t.found);
       a.Reaction? && a.gives.Some? && a.gives.value.id == ChargeId(r, r)
  }

  /** Every reply that is handled gives back its request's credit: the first one, a second answer to the same
      request, or a second copy of either. */
  lemma ReplyGivesBack(c: Config, s: State, m: MsgId, x: Match)
    requires s.fault.NoFault? && m in s.at.net && Live(s, m) && IsReply(s.msgs[m].typ)
    ensures GivesBackFor(c, s, DeliverStep(m, x), s.msgs[m].req)
  {
  }

  /** The request was answered, and may be deleted since. */
  predicate WasAnswered(s: State, r: ReqId) {
    Issued(s, r) && Rank(RecordOf(s, r).phase) > Rank(Received)
  }

  lemma SettledIsAnswered(c: Config, s: State, t: Step, r: ReqId)
    requires !c.e2eOff && NameSound(c, s) && GivesBackFor(c, s, t, r) && Next(c, s, t).fault.NoFault?
    ensures WasAnswered(Next(c, s, t), r)
    ensures WasAnswered(s, r) ==> SettlesTwice(s, t)
  {
    hide TypeSound, Names, React, Apply, Unref, Shrunk, Exact, RefInv, Tale, ChargeOf, Repays;
    SoundOf(c, s);
    DeliverParts(c, s, t.msg, t.found);
    DeliveryTale(c, s, t.msg, t.found);
    var a := ReactionTo(c, s, t.msg, t.found);
    var u := Apply(c, Arrived(s, t.msg), t.msg, a);
    SettlesFault(u, Next(c, s, t));
    TaleRest(Arrived(s, t.msg), t.msg, a, u);
    assert u.reqs[r].phase == a.req.phase;
    hide SameButRefs;
    BuriedRecord(u, Next(c, s, t), r);
  }

  lemma BuriedRecord(u: State, t: State, r: ReqId)
    requires r in u.reqs && Buried(u.reqs, t.reqs, u.ended, t.ended)
    ensures Issued(t, r) && RecordOf(t, r).phase == u.reqs[r].phase
  {
    if r in t.reqs { assert SameButRefs(u.reqs[r], t.reqs[r]); } else { assert r in t.ended; }
  }

  lemma ConservedBefore(c: Config, steps: seq<Step>, n: nat)
    requires n < |steps| && Conserves(c, steps[..n + 1])
    ensures Conserves(c, steps[..n])
    ensures Run(c, steps[..n]).fault.NoFault? && Run(c, steps[..n + 1]).fault.NoFault?
    ensures !c.e2eOff ==> !SettlesTwice(Run(c, steps[..n]), steps[n])
  {
    hide Conserved, SettlesTwice, Run;
    assert steps[..n + 1][..n] == steps[..n];
    if !c.e2eOff { ConservesExactly(c, steps[..n + 1]); }
  }

  /** Once a request's credit was given back it stays answered. */
  lemma {:induction false} StaysAnswered(c: Config, steps: seq<Step>, i: nat, k: nat, r: ReqId)
    requires !c.e2eOff && i < k <= |steps| && Conserves(c, steps[..k])
    requires GivesBackFor(c, Run(c, steps[..i]), steps[i], r)
    ensures WasAnswered(Run(c, steps[..k]), r)
    decreases k
  {
    hide Conserves, Run, Next, NameSound, GivesBackFor, SettlesTwice;
    RunExtends(c, steps, k - 1);
    ConservedBefore(c, steps, k - 1);
    if k == i + 1 {
      RunNames(c, steps[..i]);
      SettledIsAnswered(c, Run(c, steps[..i]), steps[i], r);
    } else {
      StaysAnswered(c, steps, i, k - 1, r);
      PhaseNeverDecreases(c, steps[..k - 1], steps[k - 1], r);
    }
  }

  /** A request settled twice - because it was answered twice, or because an answer was delivered twice - ends
      conservation: at the latest with the second give-back the run has aborted or its credits do not add up. */
  lemma SettledTwiceBreaks(c: Config, steps: seq<Step>, i: nat, j: nat, r: ReqId)
    requires !c.e2eOff && i < j < |steps|
    requires GivesBackFor(c, Run(c, steps[..i]), steps[i], r) && GivesBackFor(c, Run(c, steps[..j]), steps[j], r)
    ensures !Conserves(c, steps[..j + 1])
  {
    hide Conserves, Run, Next, GivesBackFor, SettlesTwice, WasAnswered, NameSound;
    if Conserves(c, steps[..j + 1]) {
      ConservedBefore(c, steps, j);
      RunExtends(c, steps, j);
      StaysAnswered(c, steps, i, j, r);
      RunNames(c, steps[..j]);
      SettledIsAnswered(c, Run(c, steps[..j]), steps[j], r);
    }
  }
}
