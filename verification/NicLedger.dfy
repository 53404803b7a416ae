/** The balance of credits: what is free plus what is charged and not given back is the configured maximum,
    for every counter of every node, and the same for the E2E entries of a node. */
module NicLedger {
  import opened Wire
  import opened FlowControl
  import opened Nic

  type Ledger = map<ChargeId, Charge>

  ghost function AtNode(open: Ledger, n: Nid): set<ChargeId> {
    set id | id in open && open[id].node == n
  }

  ghost function AtPeer(open: Ledger, n: Nid, vn: Vn, peer: Nid): set<ChargeId> {
    set id | id in open && TouchesPeer(open[id], n, vn, peer)
  }

  predicate TouchesPeer(charge: Charge, n: Nid, vn: Vn, peer: Nid) {
    charge.node == n && charge.channel.vn == vn && charge.channel.peer == peer
  }

  ghost function AtChannel(open: Ledger, n: Nid, ch: Channel): set<ChargeId> {
    set id | id in open && open[id] == Charge(n, ch)
  }

  /** The charge of the request message, and of a reply. */
  function RequestCharge(k: Command): Charge {
    Charge(k.src, Channel(RequestVn(k.service), k.dst, k.srcPid, k.targetPid))
  }

  function ReplyCharge(k: Command): Charge {
    Charge(k.dst, Channel(ResponseVn(k.service), k.src, k.targetPid, k.srcPid))
  }

  /** What is charged to a request of command `k`: under the request's own number its first message, under other
      numbers a reply. */
  function ChargeOf(k: Command, id: ChargeId): Charge {
    if id.payer == id.req then RequestCharge(k) else ReplyCharge(k)
  }

  /** The counters of one node against the charges open on it. A disabled layer counts nothing. */
  ghost predicate NodeBalanced(c: Config, f: Flow, open: Ledger, n: Nid) {
    && f.entries + |AtNode(open, n)| == MAX_E2E_ENTRIES
    && (c.maxToTarget > 0 ==> forall vn, peer {:trigger NodeFree(c, f, vn, peer)} ::
          0 <= NodeFree(c, f, vn, peer) == c.maxToTarget - |AtPeer(open, n, vn, peer)|)
    && (c.maxToProcess > 0 ==> forall ch {:trigger ProcessFree(c, f, ch)} ::
          0 <= ProcessFree(c, f, ch) == c.maxToProcess - |AtChannel(open, n, ch)|)
  }

  ghost predicate Balanced(c: Config, flows: map<Nid, Flow>, open: Ledger) {
    forall n {:trigger NodeBalanced(c, FlowAt(flows, n), open, n)} :: NodeBalanced(c, FlowAt(flows, n), open, n)
  }

  lemma OneMore(open: Ledger, id: ChargeId, charge: Charge, open': Ledger, n: Nid)
    requires id !in open && open' == open[id := charge]
    ensures |AtNode(open', n)| == |AtNode(open, n)| + (if charge.node == n then 1 else 0)
  {
    assert AtNode(open', n) == if charge.node == n then AtNode(open, n) + {id} else AtNode(open, n);
  }

  lemma OneMoreAtPeer(open: Ledger, id: ChargeId, charge: Charge, open': Ledger, n: Nid, vn: Vn, peer: Nid)
    requires id !in open && open' == open[id := charge]
    ensures |AtPeer(open', n, vn, peer)| ==
            |AtPeer(open, n, vn, peer)| + (if TouchesPeer(charge, n, vn, peer) then 1 else 0)
  {
    assert AtPeer(open', n, vn, peer) ==
           if TouchesPeer(charge, n, vn, peer) then AtPeer(open, n, vn, peer) + {id} else AtPeer(open, n, vn, peer);
  }

  lemma OneMoreAtChannel(open: Ledger, id: ChargeId, charge: Charge, open': Ledger, n: Nid, ch: Channel)
    requires id !in open && open' == open[id := charge]
    ensures |AtChannel(open', n, ch)| == |AtChannel(open, n, ch)| + (if charge == Charge(n, ch) then 1 else 0)
  {
    assert AtChannel(open', n, ch) ==
           if charge == Charge(n, ch) then AtChannel(open, n, ch) + {id} else AtChannel(open, n, ch);
  }

  /** One charge enters (d = -1) or leaves (d = 1) the ledger, and the node's counters follow. */
  lemma NodeRebalanced(c: Config, f: Flow, before: Ledger, id: ChargeId, charge: Charge, f': Flow, after: Ledger,
                       d: int)
    requires NodeBalanced(c, f, before, charge.node)
    requires if d == -1 then id !in before && after == before[id := charge]
             else d == 1 && id !in after && before == after[id := charge]
    requires CreditsMoved(c, f, f', charge.channel, d) && f'.entries == f.entries + d
    requires d == -1 ==> !Exhausted(c, f, charge.channel)
    ensures NodeBalanced(c, f', after, charge.node)
  {
    var n, small, big := charge.node, if d == -1 then before else after, if d == -1 then after else before;
    OneMore(small, id, charge, big, n);
    forall vn: Vn, peer: Nid
      ensures |AtPeer(after, n, vn, peer)| ==
              |AtPeer(before, n, vn, peer)| - (if TouchesPeer(charge, n, vn, peer) then d else 0)
    {
      OneMoreAtPeer(small, id, charge, big, n, vn, peer);
    }
    forall ch: Channel
      ensures |AtChannel(after, n, ch)| == |AtChannel(before, n, ch)| - (if charge == Charge(n, ch) then d else 0)
    {
      OneMoreAtChannel(small, id, charge, big, n, ch);
    }
    hide AtNode, AtPeer, AtChannel;
  }

  /** Other nodes do not see the charge. */
  lemma ElsewhereBalanced(c: Config, f: Flow, small: Ledger, id: ChargeId, charge: Charge, big: Ledger, n: Nid)
    requires id !in small && big == small[id := charge] && n != charge.node
    ensures NodeBalanced(c, f, small, n) <==> NodeBalanced(c, f, big, n)
  {
    assert AtNode(small, n) == AtNode(big, n);
    forall vn: Vn, peer: Nid ensures AtPeer(small, n, vn, peer) == AtPeer(big, n, vn, peer) { }
    forall ch: Channel ensures AtChannel(small, n, ch) == AtChannel(big, n, ch) { }
    hide AtNode, AtPeer, AtChannel;
  }

  lemma Rebalanced(c: Config, flows: map<Nid, Flow>, before: Ledger, id: ChargeId, charge: Charge, f': Flow,
                   flows': map<Nid, Flow>, after: Ledger, d: int)
    requires Balanced(c, flows, before) && flows' == flows[charge.node := f']
    requires if d == -1 then id !in before && after == before[id := charge]
             else d == 1 && id !in after && before == after[id := charge]
    requires CreditsMoved(c, FlowAt(flows, charge.node), f', charge.channel, d)
    requires f'.entries == FlowAt(flows, charge.node).entries + d
    requires d == -1 ==> !Exhausted(c, FlowAt(flows, charge.node), charge.channel)
    ensures Balanced(c, flows', after)
  {
    hide NodeBalanced, CreditsMoved, Exhausted;
    forall n ensures NodeBalanced(c, FlowAt(flows', n), after, n) {
      assert NodeBalanced(c, FlowAt(flows, n), before, n);
      if n == charge.node {
        NodeRebalanced(c, FlowAt(flows, n), before, id, charge, f', after, d);
      } else if d == -1 {
        ElsewhereBalanced(c, FlowAt(flows, n), before, id, charge, after, n);
      } else {
        ElsewhereBalanced(c, FlowAt(flows, n), after, id, charge, before, n);
      }
    }
  }

  /** A granted check charges its credit, whatever else is charged. */
  lemma ChargeBalanced(c: Config, flows: map<Nid, Flow>, open: Ledger, id: ChargeId, charge: Charge)
    requires Balanced(c, flows, open) && id !in open
    requires CheckFlowctrl(c, FlowAt(flows, charge.node), charge.channel).Granted?
    ensures var f := CheckFlowctrl(c, FlowAt(flows, charge.node), charge.channel).flow;
      Balanced(c, flows[charge.node := f.(entries := f.entries - 1)], open[id := charge])
  {
    hide Balanced;
    CheckMovesCredits(c, FlowAt(flows, charge.node), charge.channel);
    var f := CheckFlowctrl(c, FlowAt(flows, charge.node), charge.channel).flow;
    var f' := f.(entries := f.entries - 1);
    Rebalanced(c, flows, open, id, charge, f', flows[charge.node := f'], open[id := charge], -1);
  }

  /** Giving back an open charge on exactly its own counters never panics and keeps the balance. */
  lemma ReleaseBalanced(c: Config, flows: map<Nid, Flow>, open: Ledger, id: ChargeId)
    requires Balanced(c, flows, open) && id in open
    ensures var n, ch := open[id].node, open[id].channel;
      && Releasable(c, FlowAt(flows, n), ch)
      && Balanced(c, flows[n := ReleaseEntry(c, FlowAt(flows, n), ch).flow], open - {id})
  {
    var n, ch := open[id].node, open[id].channel;
    OpenIsReleasable(c, flows, open, id);
    hide Balanced, Releasable;
    ReleaseMovesCredits(c, FlowAt(flows, n), ch);
    assert open == (open - {id})[id := open[id]];
    var f := ReleaseEntry(c, FlowAt(flows, n), ch).flow;
    Rebalanced(c, flows, open, id, open[id], f, flows[n := f], open - {id}, 1);
  }

  lemma OpenIsReleasable(c: Config, flows: map<Nid, Flow>, open: Ledger, id: ChargeId)
    requires Balanced(c, flows, open) && id in open
    ensures Releasable(c, FlowAt(flows, open[id].node), open[id].channel)
  {
    var n, ch := open[id].node, open[id].channel;
    var f := FlowAt(flows, n);
    assert NodeBalanced(c, f, open, n);
    assert id in AtPeer(open, n, ch.vn, ch.peer) && id in AtChannel(open, n, ch);
    assert c.maxToTarget > 0 ==> NodeFree(c, f, ch.vn, ch.peer) < c.maxToTarget;
    assert c.maxToProcess > 0 ==> ProcessFree(c, f, ch) < c.maxToProcess;
  }

  /** A refusal only creates counters. */
  lemma RefusalBalanced(c: Config, flows: map<Nid, Flow>, open: Ledger, n: Nid, ch: Channel)
    requires Balanced(c, flows, open) && CheckFlowctrl(c, FlowAt(flows, n), ch).Refused?
    ensures Balanced(c, flows[n := CheckFlowctrl(c, FlowAt(flows, n), ch).flow], open)
  {
    CheckMovesCredits(c, FlowAt(flows, n), ch);
    var flows' := flows[n := CheckFlowctrl(c, FlowAt(flows, n), ch).flow];
    hide CheckFlowctrl, AtNode, AtPeer, AtChannel;
    forall k ensures NodeBalanced(c, FlowAt(flows', k), open, k) {
      assert NodeBalanced(c, FlowAt(flows, k), open, k);
    }
  }

  /** With a balanced ledger no check finds a negative counter. */
  lemma BalanceIsPositive(c: Config, flows: map<Nid, Flow>, open: Ledger, n: Nid, ch: Channel)
    requires Balanced(c, flows, open)
    ensures !CheckFlowctrl(c, FlowAt(flows, n), ch).NegativeCredit?
  {
    assert NodeBalanced(c, FlowAt(flows, n), open, n);
  }

  /** Nothing charged: every counter is full. */
  lemma FullWhenEmpty(c: Config, f: Flow, open: Ledger, n: Nid)
    requires NodeBalanced(c, f, open, n) && open == map[]
    ensures f.entries == MAX_E2E_ENTRIES
    ensures c.maxToTarget > 0 ==> forall vn, peer :: NodeFree(c, f, vn, peer) == c.maxToTarget
    ensures c.maxToProcess > 0 ==> forall ch :: ProcessFree(c, f, ch) == c.maxToProcess
  {
    assert AtNode(open, n) == {};
    forall vn: Vn, peer: Nid ensures AtPeer(open, n, vn, peer) == {} { }
    forall ch: Channel ensures AtChannel(open, n, ch) == {} { }
  }

  lemma InitBalanced(c: Config)
    ensures Balanced(c, map[], map[])
  {
    forall n ensures NodeBalanced(c, FlowAt(map[], n), map[], n) {
      assert AtNode(map[], n) == {};
      forall vn: Vn, peer: Nid ensures AtPeer(map[], n, vn, peer) == {} { }
      forall ch: Channel ensures AtChannel(map[], n, ch) == {} { }
    }
  }

  /** Free credits plus open charges equal the maximum, for every counter and every E2E semaphore. */
  ghost predicate Conserved(c: Config, s: State) {
    forall n ::
      && FlowOf(s, n).entries + |AtNode(s.open, n)| == MAX_E2E_ENTRIES
      && (c.maxToTarget > 0 ==>
            forall vn, peer ::
              0 <= NodeFree(c, FlowOf(s, n), vn, peer) == c.maxToTarget - |AtPeer(s.open, n, vn, peer)|)
      && (c.maxToProcess > 0 ==>
            forall ch :: 0 <= ProcessFree(c, FlowOf(s, n), ch) == c.maxToProcess - |AtChannel(s.open, n, ch)|)
  }

  lemma ConservedIsBalanced(c: Config, s: State)
    ensures Conserved(c, s) <==> Balanced(c, s.flows, s.open)
  {
    hide AtNode, AtPeer, AtChannel;
    if Balanced(c, s.flows, s.open) {
      forall n ensures NodeBalanced(c, FlowOf(s, n), s.open, n) {
        assert NodeBalanced(c, FlowAt(s.flows, n), s.open, n);
      }
    }
    if Conserved(c, s) {
      forall n ensures NodeBalanced(c, FlowAt(s.flows, n), s.open, n) { assert FlowOf(s, n) == FlowAt(s.flows, n); }
    }
  }
}
