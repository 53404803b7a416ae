/** Two layers of flow-control credits of one node. Counters are created lazily, full, by the first
    check that needs them, so a node's free credits are read through NodeFree and ProcessFree. */
module FlowControl {
  import opened Wire

  /** The counter a message is charged to: the virtual network, the peer node, and the two process ids. */
  datatype Channel = Channel(vn: Vn, peer: Nid, srcPid: Pid, dstPid: Pid)

  datatype Flow = Flow(
    nodeCounts: map<(Vn, Nid), int>,
    processCounts: map<Channel, int>,
    entries: int)

  const FRESH_FLOW := Flow(map[], map[], MAX_E2E_ENTRIES)

  datatype Verdict = Granted(flow: Flow) | Refused(flow: Flow) | NegativeCredit

  datatype Outcome = Released(flow: Flow) | CounterPanic

  function NodeFree(c: Config, f: Flow, vn: Vn, peer: Nid): int {
    if (vn, peer) in f.nodeCounts then f.nodeCounts[(vn, peer)] else c.maxToTarget
  }

  function ProcessFree(c: Config, f: Flow, ch: Channel): int {
    if ch in f.processCounts then f.processCounts[ch] else c.maxToProcess
  }

  /** Some enabled layer has no credit left for `ch`. */
  predicate Exhausted(c: Config, f: Flow, ch: Channel) {
    || (c.maxToTarget > 0 && NodeFree(c, f, ch.vn, ch.peer) == 0)
    || (c.maxToProcess > 0 && ProcessFree(c, f, ch) == 0)
  }

  predicate NonNegative(c: Config, f: Flow, ch: Channel) {
    NodeFree(c, f, ch.vn, ch.peer) >= 0 && ProcessFree(c, f, ch) >= 0
  }

  /** The free credits of `g` are those of `f` plus `d` on the two counters of `ch`. */
  ghost predicate CreditsMoved(c: Config, f: Flow, g: Flow, ch: Channel, d: int) {
    && (c.maxToTarget > 0 ==>
          forall vn, peer ::
            NodeFree(c, g, vn, peer) == NodeFree(c, f, vn, peer) + (if vn == ch.vn && peer == ch.peer then d else 0))
    && (c.maxToProcess > 0 ==>
          forall k ::
            ProcessFree(c, g, k) == ProcessFree(c, f, k) + (if k == ch then d else 0))
  }

  function SetNode(c: Config, f: Flow, ch: Channel, d: int): map<(Vn, Nid), int> {
    if c.maxToTarget > 0
    then f.nodeCounts[(ch.vn, ch.peer) := NodeFree(c, f, ch.vn, ch.peer) + d] else f.nodeCounts
  }

  function SetProcess(c: Config, f: Flow, ch: Channel, d: int): map<Channel, int> {
    if c.maxToProcess > 0
    then f.processCounts[ch := ProcessFree(c, f, ch) + d] else f.processCounts
  }

  /** What BxiNode::check_flowctrl does past its early exit. A refusal has still created the counters
      it looked at. */
  function CheckFlowctrl(c: Config, f: Flow, ch: Channel): Verdict {
    if c.maxToTarget > 0 && NodeFree(c, f, ch.vn, ch.peer) < 0 then NegativeCredit
    else if c.maxToTarget > 0 && NodeFree(c, f, ch.vn, ch.peer) == 0
      then Refused(f.(nodeCounts := SetNode(c, f, ch, 0)))
    else if c.maxToProcess > 0 && ProcessFree(c, f, ch) < 0 then NegativeCredit
    else if c.maxToProcess > 0 && ProcessFree(c, f, ch) == 0
      then Refused(f.(nodeCounts := SetNode(c, f, ch, 0), processCounts := SetProcess(c, f, ch, 0)))
    else Granted(Flow(SetNode(c, f, ch, -1), SetProcess(c, f, ch, -1), f.entries))
  }

  /** The counters of `ch` exist and have room for one more credit. */
  predicate Releasable(c: Config, f: Flow, ch: Channel) {
    && (c.maxToTarget > 0 ==> (ch.vn, ch.peer) in f.nodeCounts && f.nodeCounts[(ch.vn, ch.peer)] < c.maxToTarget)
    && (c.maxToProcess > 0 ==> ch in f.processCounts && f.processCounts[ch] < c.maxToProcess)
  }

  /** What BxiNode::release_e2e_entry does to the counters. */
  function ReleaseEntry(c: Config, f: Flow, ch: Channel): Outcome {
    if Releasable(c, f, ch) then Released(Flow(SetNode(c, f, ch, 1), SetProcess(c, f, ch, 1), f.entries + 1))
    else CounterPanic
  }

  lemma CheckMovesCredits(c: Config, f: Flow, ch: Channel)
    ensures var v := CheckFlowctrl(c, f, ch);
      && (NonNegative(c, f, ch) ==> !v.NegativeCredit?)
      && (v.Granted? ==> !Exhausted(c, f, ch) && CreditsMoved(c, f, v.flow, ch, -1))
      && (v.Refused? ==> Exhausted(c, v.flow, ch) && CreditsMoved(c, f, v.flow, ch, 0))
      && (!v.NegativeCredit? ==> v.flow.entries == f.entries)
  {
  }

  lemma ReleaseMovesCredits(c: Config, f: Flow, ch: Channel)
    requires Releasable(c, f, ch)
    ensures CreditsMoved(c, f, ReleaseEntry(c, f, ch).flow, ch, 1)
  {
  }

  /** A release undoes a granted check: every credit and the semaphore are back where they were. */
  lemma ReleaseUndoesCheck(c: Config, f: Flow, ch: Channel)
    requires CheckFlowctrl(c, f, ch).Granted?
    requires NodeFree(c, f, ch.vn, ch.peer) <= c.maxToTarget && ProcessFree(c, f, ch) <= c.maxToProcess
    ensures var g := CheckFlowctrl(c, f, ch).flow.(entries := f.entries - 1);
      && Releasable(c, g, ch)
      && ReleaseEntry(c, g, ch).flow.entries == f.entries
      && CreditsMoved(c, f, ReleaseEntry(c, g, ch).flow, ch, 0)
  {
  }
}
