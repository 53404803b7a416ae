/** Locally managed entries (Portals 4.1, section 3.12.1): the messages an entry accepts tile its memory from
    the start, in order of arrival, and the entry goes when less than `minFree` bytes are left. All sizes are
    64-bit, and both facts hold exactly as long as no 64-bit sum wraps. */
module PortalsTiling {
  import opened Wire
  import opened Words
  import opened Portals
  import opened PortalsMatching

  /** One message accepted: the next one starts where it ends, exactly if the 64-bit sum does not wrap. */
  lemma AdvancesByLength(e: Entry, size: Size)
    requires e.me.manageLocal && e.offset <= e.me.length
    ensures e.offset + MLength(e, size) <= e.me.length
    ensures Advanced(e, size) == e.offset + MLength(e, size) <==> e.offset + size < WORD
  {
  }

  /** The auto-unlink test is "less than minFree bytes left", exactly if the 64-bit sum does not wrap. */
  lemma UnlinksWhenFull(e: Entry)
    requires e.me.manageLocal && !e.me.useOnce && e.offset <= e.me.length
    ensures (AutoUnlinks(e) <==> e.me.length - e.offset < e.me.minFree) <==> e.offset + e.me.minFree < WORD
  {
  }

  // ---------------------------------------------------------------- delivered bytes

  /** Pairing made by a message that arrived for the locally managed entry `id`. */
  predicate DeliveredTo(p: Pairing, id: nat) {
    p.entry.id == id && p.entry.me.manageLocal && !p.how.AtAppend?
  }

  /** Bytes delivered to the locally managed entry `id` so far. */
  function Delivered(log: seq<Pairing>, id: nat): nat {
    if log == [] then 0
    else
      var p := log[|log| - 1];
      Delivered(log[..|log| - 1], id) + if DeliveredTo(p, id) then p.mlength else 0
  }

  /** No message made the offset of its entry wrap. */
  ghost predicate NoWrap(log: seq<Pairing>) {
    forall k :: 0 <= k < |log| && DeliveredTo(log[k], log[k].entry.id) ==> log[k].start + log[k].message.size < WORD
  }

  /** Every message starts where the ones before it end, and stays within the entry. */
  ghost predicate TiledAt(log: seq<Pairing>, k: nat)
    requires k < |log|
  {
    var p := log[k];
    DeliveredTo(p, p.entry.id) ==>
      p.start == Delivered(log[..k], p.entry.id) && p.start + p.mlength <= p.entry.me.length
  }

  ghost predicate OffsetsTell(es: seq<Entry>, log: seq<Pairing>) {
    forall e :: e in es ==> if e.me.manageLocal then e.offset == Delivered(log, e.id) else e.offset == 0
  }

  /** An entry that a message arrived for is due for auto-unlink only while it is in use. */
  ghost predicate Lingers(es: seq<Entry>, log: seq<Pairing>) {
    forall e, k :: e in es && 0 <= k < |log| && DeliveredTo(log[k], e.id) && !e.inUse ==> !AutoUnlinks(e)
  }

  ghost predicate Tiled(t: Table) {
    NoWrap(t.log) ==>
      && OffsetsTell(t.priority, t.log) && OffsetsTell(t.overflow, t.log)
      && (forall k :: 0 <= k < |t.log| ==> TiledAt(t.log, k))
  }

  ghost predicate Shrinking(t: Table) {
    Lingers(t.priority, t.log) && Lingers(t.overflow, t.log)
  }

  // ---------------------------------------------------------------- logs that grow

  lemma DeliveredOne(log: seq<Pairing>, p: Pairing, id: nat)
    ensures Delivered(log + [p], id) == Delivered(log, id) + (if DeliveredTo(p, id) then p.mlength else 0)
  {
    assert (log + [p])[..|log + [p]| - 1] == log;
  }

  lemma {:induction false} DeliveredNone(log: seq<Pairing>, more: seq<Pairing>, id: nat)
    requires forall i :: 0 <= i < |more| ==> !DeliveredTo(more[i], id)
    ensures Delivered(log + more, id) == Delivered(log, id)
  {
    if more == [] {
      assert log + more == log;
    } else {
      var n := |more| - 1;
      DeliveredNone(log, more[..n], id);
      assert log + more == (log + more[..n]) + [more[n]];
      DeliveredOne(log + more[..n], more[n], id);
    }
  }

  lemma TiledPrefix(log: seq<Pairing>, more: seq<Pairing>, k: nat)
    requires k < |log| && TiledAt(log, k)
    ensures TiledAt(log + more, k)
  {
    assert (log + more)[..k] == log[..k];
  }

  lemma {:induction false} NeverMentioned(log: seq<Pairing>, id: nat)
    requires forall k :: 0 <= k < |log| ==> log[k].entry.id != id
    ensures Delivered(log, id) == 0
  {
    if log != [] { NeverMentioned(log[..|log| - 1], id); }
  }

  // ---------------------------------------------------------------- steps

  lemma AppendShrinking(t: Table, d: Descriptor, list: ListKind)
    requires Fits(t) && Shrinking(t)
    ensures Shrinking(Append(t, d, list))
  {
    AppendShape(t, d, list);
    hide Append, TakenBy, Unexpected, ListFits, Apart, Live, AutoUnlinks;
    forall k | 0 <= k < |t.log| ensures t.log[k].entry.id != t.nextEntry { }
    hide LogFits;
  }

  lemma AppendTiled(t: Table, d: Descriptor, list: ListKind)
    requires Fits(t) && Tiled(t)
    ensures Tiled(Append(t, d, list))
  {
    AppendShape(t, d, list);
    var e, taken, u := Fresh(t, d, list), TakenBy(t, d, list), Append(t, d, list);
    var more := Pairings(e, taken);
    hide Append, TakenBy, Unexpected, ListFits, Apart, Live, AutoUnlinks;
    forall id: nat ensures Delivered(u.log, id) == Delivered(t.log, id) { DeliveredNone(t.log, more, id); }
    NeverMentioned(t.log, e.id);
    if NoWrap(u.log) {
      assert forall k :: 0 <= k < |t.log| ==> u.log[k] == t.log[k];
      assert NoWrap(t.log);
      forall k | 0 <= k < |u.log| ensures TiledAt(u.log, k) {
        if k < |t.log| { TiledPrefix(t.log, more, k); }
      }
    }
    hide LogFits, NoWrap, TiledAt;
  }

  /** The entry that accepts a message moves on by what it delivers; the others do not move. */
  lemma ArriveOffsets(es: seq<Entry>, e: Entry, h: Header, how: How, log: seq<Pairing>)
    requires Posted(es) && OffsetsTell(es, log) && !how.AtAppend?
    requires Listed(es, e.id) ==> e in es
    requires e.offset <= e.me.length && NoWrap(log + [Pair(e, h, how)])
    ensures OffsetsTell(Put(es, Accepted(e, h)), log + [Pair(e, h, how)])
  {
    var p := Pair(e, h, how);
    assert (log + [p])[|log|] == p;
    if e.me.manageLocal { AdvancesByLength(e, h.size); }
    PutMembers(es, Accepted(e, h));
    hide Put, Posted, NoWrap, Matches;
    forall f | f in Put(es, Accepted(e, h))
      ensures if f.me.manageLocal then f.offset == Delivered(log + [p], f.id) else f.offset == 0
    {
      DeliveredOne(log, p, f.id);
    }
  }

  lemma ArriveLingers(es: seq<Entry>, e: Entry, h: Header, how: How, log: seq<Pairing>)
    requires Posted(es) && Lingers(es, log)
    ensures Lingers(Put(es, Accepted(e, h)), log + [Pair(e, h, how)])
  {
    PutMembers(es, Accepted(e, h));
    var log' := log + [Pair(e, h, how)];
    hide Put, Posted, AutoUnlinks;
    forall f, k | f in Put(es, Accepted(e, h)) && 0 <= k < |log'| && DeliveredTo(log'[k], f.id) && !f.inUse
      ensures !AutoUnlinks(f)
    {
      assert f in es && f.id != e.id && k < |log| && log'[k] == log[k];
    }
  }

  lemma ArriveLogTiled(e: Entry, h: Header, how: How, log: seq<Pairing>)
    requires forall k :: 0 <= k < |log| ==> TiledAt(log, k)
    requires e.offset <= e.me.length && (e.me.manageLocal ==> e.offset == Delivered(log, e.id))
    ensures var log' := log + [Pair(e, h, how)]; forall k :: 0 <= k < |log'| ==> TiledAt(log', k)
  {
    var log' := log + [Pair(e, h, how)];
    if e.me.manageLocal { AdvancesByLength(e, h.size); }
    forall k | 0 <= k < |log'| ensures TiledAt(log', k) {
      if k < |log| { TiledPrefix(log, [Pair(e, h, how)], k); } else { assert log'[..k] == log; }
    }
  }

  lemma ArrivedTiled(t: Table, e: Entry, h: Header, how: How, u: Table)
    requires Fits(t) && Tiled(t) && Shrinking(t) && !how.AtAppend? && (e in t.priority || e in t.overflow)
    requires u.priority == Put(t.priority, Accepted(e, h)) && u.overflow == Put(t.overflow, Accepted(e, h))
    requires u.log == t.log + [Pair(e, h, how)]
    ensures Tiled(u) && Shrinking(u)
  {
    EntryLogged(t, e);
    ListedMembers(t.priority, e.id);
    ListedMembers(t.overflow, e.id);
    assert e.offset <= e.me.length;
    OneList(t, e);
    hide Unexpected, LogFits, Linked, Logged, Apart, Live, Put, Accepted, Pair, Matches, Listed;
    ArriveLingers(t.priority, e, h, how, t.log);
    ArriveLingers(t.overflow, e, h, how, t.log);
    if NoWrap(u.log) {
      WrapPrefix(t.log, [Pair(e, h, how)]);
      hide NoWrap;
      ArriveOffsets(t.priority, e, h, how, t.log);
      ArriveOffsets(t.overflow, e, h, how, t.log);
      ArriveLogTiled(e, h, how, t.log);
    }
  }

  lemma WrapPrefix(log: seq<Pairing>, more: seq<Pairing>)
    requires NoWrap(log + more)
    ensures NoWrap(log)
  {
    assert forall k :: 0 <= k < |log| ==> (log + more)[k] == log[k];
  }

  lemma OneList(t: Table, e: Entry)
    requires Fits(t) && (e in t.priority || e in t.overflow)
    ensures Listed(t.priority, e.id) ==> e in t.priority
    ensures Listed(t.overflow, e.id) ==> e in t.overflow
  {
    ListedMembers(t.priority, e.id);
    ListedMembers(t.overflow, e.id);
    hide LogFits, Unexpected, Linked, Logged;
  }

  lemma ArriveTiled(t: Table, matching: bool, bits: bv64, size: Size, remoteOffset: Size)
    requires Fits(t) && Tiled(t) && Shrinking(t)
    ensures Tiled(Arrive(t, matching, bits, size, remoteOffset))
    ensures Shrinking(Arrive(t, matching, bits, size, remoteOffset))
  {
    hide Fits, Tiled, Shrinking, Accepted, Pair, Matches, Put;
    var h := Header(t.nextMessage, matching, bits, size, remoteOffset);
    var u := Arrive(t, matching, bits, size, remoteOffset);
    var i, j := FirstMatch(t.priority, h), FirstMatch(t.overflow, h);
    if t.busy.None? && t.enabled && (i < |t.priority| || j < |t.overflow|) {
      FoundListed(t, h);
      ArriveShape(t, h);
      hide Arrive;
      ArrivedTiled(t, if i < |t.priority| then t.priority[i] else t.overflow[j], h,
                   if i < |t.priority| then Direct else ToOverflow, u);
    } else {
      SameTiled(t, u);
    }
  }

  lemma SameTiled(t: Table, u: Table)
    requires Tiled(t) && Shrinking(t) && u.priority == t.priority && u.overflow == t.overflow && u.log == t.log
    ensures Tiled(u) && Shrinking(u)
  {
  }

  /** An entry changes its flags; if it goes out of use it is not due for auto-unlink. */
  lemma SetTiled(t: Table, e: Entry, u: Table)
    requires Fits(t) && Tiled(t) && Shrinking(t) && Live(t, e.id)
    requires e.me == EntryOf(t, e.id).me && e.offset == EntryOf(t, e.id).offset && (e.inUse || !AutoUnlinks(e))
    requires u.priority == Put(t.priority, e) && u.overflow == Put(t.overflow, e) && u.log == t.log
    ensures Tiled(u) && Shrinking(u)
  {
    LiveEntry(t, e.id);
    PutMembers(t.priority, e);
    PutMembers(t.overflow, e);
    hide Put, LogFits, Unexpected, Linked, Logged, NoWrap, TiledAt, AutoUnlinks, Live, Listed;
  }

  lemma RemoveTiled(t: Table, id: nat, u: Table)
    requires Tiled(t) && Shrinking(t)
    requires u.priority == Without(t.priority, id) && u.overflow == Without(t.overflow, id) && u.log == t.log
    ensures Tiled(u) && Shrinking(u)
  {
    WithoutMembers(t.priority, id);
    WithoutMembers(t.overflow, id);
    hide Without, NoWrap, TiledAt, AutoUnlinks;
  }

  lemma NextTiled(t: Table, s: Step)
    requires Fits(t) && Tiled(t) && Shrinking(t)
    ensures Tiled(Next(t, s)) && Shrinking(Next(t, s))
  {
    hide Fits, Tiled, Shrinking, Put, Without, Live, AutoUnlinks;
    var u := Next(t, s);
    match s
    case AppendStep(d, list) => hide Append; AppendTiled(t, d, list); AppendShrinking(t, d, list);
    case ArriveStep(matching, bits, size, remoteOffset) =>
      hide Arrive;
      ArriveTiled(t, matching, bits, size, remoteOffset);
    case FinishStep =>
      if t.busy.Some? && Live(t, t.busy.value) {
        var e := EntryOf(t, t.busy.value).(inUse := false);
        LiveEntry(t, t.busy.value);
        if AutoUnlinks(e) || e.needsUnlink { RemoveTiled(t, e.id, u); } else { SetTiled(t, e, u); }
      }
    case UnlinkStep(id) =>
      if Live(t, id) && !Claimed(t, EntryOf(t, id)) {
        LiveEntry(t, id);
        if EntryOf(t, id).inUse {
          SetTiled(t, EntryOf(t, id).(needsUnlink := true), u);
        } else {
          RemoveTiled(t, id, u);
        }
      }
    case EnableStep(enabled) => SameTiled(t, u);
  }

  lemma {:induction false} RunTiled(steps: seq<Step>)
    ensures Tiled(Run(steps)) && Shrinking(Run(steps))
  {
    if steps != [] {
      hide Tiled, Shrinking, Next;
      RunTiled(steps[..|steps| - 1]);
      RunFits(steps[..|steps| - 1]);
      NextTiled(Run(steps[..|steps| - 1]), steps[|steps| - 1]);
    }
  }

  // ---------------------------------------------------------------- theorems

  lemma {:induction false} DeliveredGrows(log: seq<Pairing>, i: nat, j: nat, id: nat)
    requires i < j <= |log|
    ensures Delivered(log[..i], id) + (if DeliveredTo(log[i], id) then log[i].mlength else 0) <= Delivered(log[..j], id)
    ensures (forall k :: i < k < j ==> !DeliveredTo(log[k], id)) ==>
      Delivered(log[..i], id) + (if DeliveredTo(log[i], id) then log[i].mlength else 0) == Delivered(log[..j], id)
    decreases j - i
  {
    assert log[..j] == log[..j - 1] + [log[j - 1]];
    DeliveredOne(log[..j - 1], log[j - 1], id);
    if i < j - 1 { DeliveredGrows(log, i, j - 1, id); }
  }

  /** The messages one locally managed entry accepts are delivered in order of arrival to disjoint ranges
      within its memory, each starting where the one before it ends. */
  lemma ManagedEntriesTile(steps: seq<Step>, i: nat, j: nat, id: nat)
    requires var log := Run(steps).log;
      NoWrap(log) && i < j < |log| && DeliveredTo(log[i], id) && DeliveredTo(log[j], id)
    ensures var log := Run(steps).log;
      && log[i].message.id < log[j].message.id
      && log[i].start + log[i].mlength <= log[j].start
      && log[j].start + log[j].mlength <= log[j].entry.me.length
      && ((forall k :: i < k < j ==> !DeliveredTo(log[k], id)) ==> log[i].start + log[i].mlength == log[j].start)
  {
    RunTiled(steps);
    var log := Run(steps).log;
    assert TiledAt(log, i) && TiledAt(log, j);
    DeliveredGrows(log, i, j, id);
    ArrivalsOrdered(steps, i, j);
  }

  /** The offset of a linked entry is the sum of what it delivered, and stays within its length; once a message
      arrived for it, it is linked and idle only while `minFree` bytes are left. */
  lemma OffsetIsDelivered(steps: seq<Step>, e: Entry, k: nat)
    requires var t := Run(steps);
      && NoWrap(t.log) && (e in t.priority || e in t.overflow) && e.me.manageLocal
      && k < |t.log| && DeliveredTo(t.log[k], e.id)
    ensures e.offset == Delivered(Run(steps).log, e.id) <= e.me.length
    ensures !e.inUse && e.offset + e.me.minFree < WORD ==> e.me.length - e.offset >= e.me.minFree
  {
    RunTiled(steps);
    RunFits(steps);
    EntryLogged(Run(steps), e);
    if !e.inUse { assert !AutoUnlinks(e); UnlinksWhenFull(e); }
    hide LogFits, Unexpected, TiledAt, Run;
  }

  // ---------------------------------------------------------------- arrivals are logged in order

  lemma {:induction false} ArrivalsOrdered(steps: seq<Step>, i: nat, j: nat)
    requires i < j < |Run(steps).log| && !Run(steps).log[i].how.AtAppend? && !Run(steps).log[j].how.AtAppend?
    ensures Run(steps).log[i].message.id < Run(steps).log[j].message.id
  {
    var before, s := Run(steps[..|steps| - 1]), steps[|steps| - 1];
    RunFits(steps[..|steps| - 1]);
    RunFits(steps);
    LogGrows(before, s);
    LogBounded(before, i);
    hide Fits, Next, TakenBy, Matches;
    if j < |before.log| { ArrivalsOrdered(steps[..|steps| - 1], i, j); }
  }

  lemma LogBounded(t: Table, i: nat)
    requires Fits(t)
    ensures i < |t.log| ==> t.log[i].message.id < t.nextMessage
  {
    hide ListFits, Unexpected;
  }
}
