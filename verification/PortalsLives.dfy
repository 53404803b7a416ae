/** The life of a match entry, step by step and over whole runs: what it matches, when it is linked, what an arriving
    message does to it, and when it leaves. */
module PortalsLives {
  import opened Wire
  import opened Words
  import opened Portals
  import opened PortalsMatching

  // ---------------------------------------------------------------- matching

  /** Two words agree in every bit the entry does not ignore. */
  predicate Agree(bits: bv64, me: Descriptor) {
    bits & !me.ignore == me.bits & !me.ignore
  }

  lemma MatchAgrees(bits: bv64, me: Descriptor)
    requires BitsMatch(bits, me)
    ensures Agree(bits, me)
  {
  }

  lemma AgreementMatches(bits: bv64, me: Descriptor)
    requires Agree(bits, me)
    ensures BitsMatch(bits, me)
  {
  }

  /** An entry matches every request that does not ask for matching, and of the others those that agree with it in
      every bit it does not ignore. A USE_ONCE entry that was used matches nothing. */
  lemma MatchesBits(e: Entry, h: Header)
    ensures Matches(e, h) <==> !(e.me.useOnce && e.used) && (h.matching ==> Agree(h.bits, e.me))
  {
    hide BitsMatch, Agree;
    if BitsMatch(h.bits, e.me) { MatchAgrees(h.bits, e.me); }
    if Agree(h.bits, e.me) { AgreementMatches(h.bits, e.me); }
  }

  // ---------------------------------------------------------------- one step in the life of an entry

  /** The entry keeps its own offset, and what is left of its length does not hold `minFree` bytes: the program adds in
      64 bits. */
  predicate Full(e: Entry) {
    e.me.manageLocal && (e.offset + e.me.minFree) % WORD > e.me.length
  }

  /** A pending header still wants this overflow entry. */
  ghost predicate Wanted(t: Table, e: Entry) {
    e.list.Overflow? && exists h :: h in t.headers && Matches(e, h)
  }

  /** The step unlinks entry `e`: its handler is done with it and it was for one use, is full, or was to go; or it is
      unlinked while no handler uses it and no pending header wants it. */
  ghost predicate Leaves(t: Table, s: Step, e: Entry) {
    match s
    case FinishStep => t.busy == Some(e.id) && (e.me.useOnce || Full(e) || e.needsUnlink)
    case UnlinkStep(id) => id == e.id && !e.inUse && !Wanted(t, e)
    case _ => false
  }

  /** The step brings message `h` to entry `e`: the target is idle and its table enabled, and `e` is the first match of
      the priority list, or of the overflow list if the priority list has none. */
  ghost predicate Receives(t: Table, s: Step, e: Entry) {
    && s.ArriveStep? && t.busy == None && t.enabled
    && var h := Header(t.nextMessage, s.matching, s.bits, s.size, s.remoteOffset);
       && Matches(e, h) && (forall f :: f in t.priority && (f.id < e.id || e.list.Overflow?) ==> !Matches(f, h))
       && (e.list.Overflow? ==> forall f :: f in t.overflow && f.id < e.id ==> !Matches(f, h))
  }

  /** The locally managed offset moves on by the size of the message, at most to the length. */
  predicate Moved(e: Entry, size: Size, offset: Size) {
    if !e.me.manageLocal then offset == e.offset
    else if (e.offset + size) % WORD <= e.me.length then offset == (e.offset + size) % WORD
    else offset == e.me.length
  }

  /** Entry `e` is `f` after a step that leaves it linked. */
  ghost predicate Becomes(t: Table, s: Step, e: Entry, f: Entry) {
    && f.id == e.id && f.list == e.list && f.me == e.me
    && (f.used <==> e.used || Receives(t, s, e))
    && (f.inUse <==> Receives(t, s, e) || (e.inUse && s != FinishStep))
    && (f.needsUnlink <==> e.needsUnlink || (s == UnlinkStep(e.id) && e.inUse && !Wanted(t, e)))
    && if Receives(t, s, e) then Moved(e, s.size, f.offset) else f.offset == e.offset
  }

  /** What a step does to a linked entry. */
  ghost predicate Lives(t: Table, s: Step, e: Entry) {
    var u := Next(t, s);
    if Leaves(t, s, e) then !Live(u, e.id) && u.unlinked == t.unlinked + [e.id]
    else Live(u, e.id) && e.id !in u.unlinked && Becomes(t, s, e, EntryOf(u, e.id))
  }

  lemma IsEntry(t: Table, e: Entry)
    requires Fits(t) && (e in t.priority || e in t.overflow)
    ensures Live(t, e.id) && EntryOf(t, e.id) == e && e.id !in t.unlinked
    ensures Linked(e, if e in t.priority then Priority else Overflow, t.nextEntry, t.busy, t.unlinked)
  {
    ListedMembers(t.priority, e.id);
    ListedMembers(t.overflow, e.id);
    hide LogFits, Unexpected, Logged;
  }

  /** It is enough to find the entry among those of the next table. */
  lemma StaysAs(t: Table, s: Step, e: Entry, f: Entry)
    requires Fits(t) && !Leaves(t, s, e) && Becomes(t, s, e, f)
    requires f in Next(t, s).priority || f in Next(t, s).overflow
    ensures Lives(t, s, e)
  {
    hide Next, Fits, Receives, Wanted, Moved, Leaves;
    NextFits(t, s);
    IsEntry(Next(t, s), f);
  }

  lemma AppendLives(t: Table, d: Descriptor, list: ListKind, e: Entry)
    requires Fits(t) && (e in t.priority || e in t.overflow)
    ensures Lives(t, AppendStep(d, list), e)
  {
    AppendShape(t, d, list);
    hide Fits, Append, TakenBy, Left, Matches, Lives;
    StaysAs(t, AppendStep(d, list), e, e);
  }

  lemma EnableLives(t: Table, enabled: bool, e: Entry)
    requires Fits(t) && (e in t.priority || e in t.overflow)
    ensures Lives(t, EnableStep(enabled), e)
  {
    hide Fits, Matches, Lives;
    StaysAs(t, EnableStep(enabled), e, e);
  }

  /** An entry stays in its lists when another one changes. */
  lemma PutOthers(t: Table, g: Entry, e: Entry)
    requires Fits(t) && (e in t.priority || e in t.overflow) && Live(t, g.id)
    ensures var f := if e.id == g.id then g else e; f in Put(t.priority, g) || f in Put(t.overflow, g)
  {
    PutMembers(t.priority, g);
    PutMembers(t.overflow, g);
    hide Put, LogFits, Unexpected;
  }

  lemma FinishLives(t: Table, e: Entry)
    requires Fits(t) && (e in t.priority || e in t.overflow)
    ensures Lives(t, FinishStep, e)
  {
    IsEntry(t, e);
    if t.busy == None {
      StaysAs(t, FinishStep, e, e);
    } else {
      var id := t.busy.value;
      LiveEntry(t, id);
      var g := EntryOf(t, id).(inUse := false);
      if AutoUnlinks(g) || g.needsUnlink {
        RemovedLives(t, FinishStep, id, e);
      } else {
        PutOthers(t, g, e);
        StaysAs(t, FinishStep, e, if e.id == id then g else e);
      }
    }
  }

  /** The step unlinks entry `id`, and `e` may be another one. */
  lemma RemovedLives(t: Table, s: Step, id: nat, e: Entry)
    requires Fits(t) && (e in t.priority || e in t.overflow) && Live(t, id)
    requires Next(t, s) == Remove(if s.FinishStep? then t.(busy := None) else t, id)
    requires (s.FinishStep? && t.busy == Some(id)) || s == UnlinkStep(id)
    requires id == e.id ==> Leaves(t, s, e)
    ensures Lives(t, s, e)
  {
    RemovedLive(t, id, Next(t, s));
    WithoutMembers(t.priority, id);
    WithoutMembers(t.overflow, id);
    hide Next, Without, Live;
    if e.id != id { StaysAs(t, s, e, e); }
  }

  lemma WantedClaims(t: Table, e: Entry)
    ensures Claimed(t, e) <==> Wanted(t, e)
  {
    hide Matches;
    if Wanted(t, e) {
      var h :| h in t.headers && Matches(e, h);
      var i :| 0 <= i < |t.headers| && t.headers[i] == h;
    }
  }

  lemma UnlinkLives(t: Table, id: nat, e: Entry)
    requires Fits(t) && (e in t.priority || e in t.overflow)
    ensures Lives(t, UnlinkStep(id), e)
  {
    IsEntry(t, e);
    WantedClaims(t, e);
    hide Wanted, Claimed;
    if !Live(t, id) || Claimed(t, EntryOf(t, id)) {
      StaysAs(t, UnlinkStep(id), e, e);
    } else {
      LiveEntry(t, id);
      if EntryOf(t, id).inUse {
        var g := EntryOf(t, id).(needsUnlink := true);
        PutOthers(t, g, e);
        StaysAs(t, UnlinkStep(id), e, if e.id == id then g else e);
      } else {
        RemovedLives(t, UnlinkStep(id), id, e);
      }
    }
  }

  // ---------------------------------------------------------------- arrivals

  lemma FirstInList(es: seq<Entry>, h: Header, e: Entry)
    requires Posted(es) && e in es
    ensures FirstMatch(es, h) < |es| && es[FirstMatch(es, h)] == e <==>
      Matches(e, h) && forall f :: f in es && f.id < e.id ==> !Matches(f, h)
  {
    var i := FirstMatch(es, h);
    var k :| 0 <= k < |es| && es[k] == e;
    if i < |es| && i < k { assert es[i] in es && es[i].id < e.id; }
    forall f | f in es && f.id < e.id ensures i == k ==> !Matches(f, h) {
      var j :| 0 <= j < |es| && es[j] == f;
    }
    hide Matches;
  }

  /** The entry that takes an arriving message is the one that receives it. */
  lemma ReceiverFound(t: Table, s: Step, e: Entry)
    requires Fits(t) && s.ArriveStep? && t.busy == None && t.enabled && (e in t.priority || e in t.overflow)
    ensures var h := Header(t.nextMessage, s.matching, s.bits, s.size, s.remoteOffset);
      var i, j := FirstMatch(t.priority, h), FirstMatch(t.overflow, h);
      Receives(t, s, e) <==>
        if i < |t.priority| then e == t.priority[i] else j < |t.overflow| && e == t.overflow[j]
  {
    var h := Header(t.nextMessage, s.matching, s.bits, s.size, s.remoteOffset);
    IsEntry(t, e);
    if e in t.priority { FirstInList(t.priority, h, e); }
    if e in t.overflow { FirstInList(t.overflow, h, e); }
    FoundListed(t, h);
    hide Matches, LogFits, Unexpected, FirstMatch;
  }

  lemma ArriveLives(t: Table, s: Step, e: Entry)
    requires Fits(t) && s.ArriveStep? && (e in t.priority || e in t.overflow)
    ensures Lives(t, s, e)
  {
    if t.busy.Some? || !t.enabled {
      StaysAs(t, s, e, e);
    } else {
      var h := Header(t.nextMessage, s.matching, s.bits, s.size, s.remoteOffset);
      var i, j := FirstMatch(t.priority, h), FirstMatch(t.overflow, h);
      ReceiverFound(t, s, e);
      IsEntry(t, e);
      if i < |t.priority| || j < |t.overflow| {
        var g := if i < |t.priority| then t.priority[i] else t.overflow[j];
        ArriveShape(t, h);
        FoundListed(t, h);
        IsEntry(t, g);
        PutOthers(t, Accepted(g, h), e);
        AcceptedMoves(g, h);
        StaysAs(t, s, e, if e.id == g.id then Accepted(g, h) else e);
      } else {
        StaysAs(t, s, e, e);
      }
    }
  }

  lemma AcceptedMoves(e: Entry, h: Header)
    ensures var f := Accepted(e, h);
      && f.id == e.id && f.list == e.list && f.me == e.me && f.used && f.inUse
      && f.needsUnlink == e.needsUnlink && Moved(e, h.size, f.offset)
  {
  }

  /** Every step of every run, for every linked entry. */
  lemma NextLives(steps: seq<Step>, s: Step, e: Entry)
    requires e in Run(steps).priority || e in Run(steps).overflow
    ensures Lives(Run(steps), s, e)
  {
    var t := Run(steps);
    RunFits(steps);
    hide Run, Fits, Lives;
    match s
    case AppendStep(d, list) => AppendLives(t, d, list, e);
    case ArriveStep(_, _, _, _) => ArriveLives(t, s, e);
    case FinishStep => FinishLives(t, e);
    case UnlinkStep(id) => UnlinkLives(t, id, e);
    case EnableStep(enabled) => EnableLives(t, enabled, e);
  }

  /** The pairing of a message that arrives with the entry that receives it: as many bytes as are left in the entry,
      from its own offset or from the one the message asks for. */
  predicate Delivers(p: Pairing, e: Entry, h: Header) {
    && p.entry == e && p.message == h && p.how == (if e.list.Priority? then Direct else ToOverflow)
    && p.start == (if e.me.manageLocal then e.offset else h.remoteOffset)
    && e.offset <= e.me.length
    && p.mlength == if e.me.length - e.offset < h.size then e.me.length - e.offset else h.size
  }

  /** Entry `e` takes message `h`, and the target's handler is at work on it. */
  ghost predicate Takes(t: Table, u: Table, e: Entry, h: Header) {
    && u.log != [] && u.log[..|u.log| - 1] == t.log && Delivers(u.log[|u.log| - 1], e, h)
    && u.busy == Some(e.id) && u.headers == t.headers + if e.list.Overflow? then [h] else []
  }

  /** What happens to an arriving message in every run: if some linked entry matches it, the one that receives it takes
      it, and only an overflow entry makes it an unexpected header; otherwise it is dropped. */
  lemma ArrivalDecides(steps: seq<Step>, s: Step)
    requires s.ArriveStep?
    ensures var t := Run(steps);
      var u, h := Next(t, s), Header(t.nextMessage, s.matching, s.bits, s.size, s.remoteOffset);
      if t.busy.Some? then u == t
      else
        && u.nextMessage == t.nextMessage + 1 && u.enabled == t.enabled
        && if t.enabled && exists f :: (f in t.priority || f in t.overflow) && Matches(f, h)
           then exists e :: (e in t.priority || e in t.overflow) && Receives(t, s, e) && Takes(t, u, e, h)
           else u.log == t.log && u.busy == None && u.headers == t.headers
  {
    var t := Run(steps);
    RunFits(steps);
    hide Run, Fits, Receives, Takes, Matches, Arrive;
    if t.busy.None? && t.enabled { ArrivalTakes(t, s); }
    ArrivalIdle(t, s);
  }

  lemma ArrivalIdle(t: Table, s: Step)
    requires s.ArriveStep?
    ensures t.busy.Some? ==> Next(t, s) == t
    ensures t.busy.None? && !t.enabled ==> Next(t, s) == t.(nextMessage := t.nextMessage + 1)
  {
  }

  lemma ArrivalTakes(t: Table, s: Step)
    requires Fits(t) && s.ArriveStep? && t.busy.None? && t.enabled
    ensures var u, h := Next(t, s), Header(t.nextMessage, s.matching, s.bits, s.size, s.remoteOffset);
      && u.nextMessage == t.nextMessage + 1 && u.enabled
      && if exists f :: (f in t.priority || f in t.overflow) && Matches(f, h)
         then exists e :: (e in t.priority || e in t.overflow) && Receives(t, s, e) && Takes(t, u, e, h)
         else u.log == t.log && u.busy == None && u.headers == t.headers
  {
    var h := Header(t.nextMessage, s.matching, s.bits, s.size, s.remoteOffset);
    var i, j := FirstMatch(t.priority, h), FirstMatch(t.overflow, h);
    FoundListed(t, h);
    if i < |t.priority| || j < |t.overflow| {
      ReceiverTakes(t, s);
      hide Fits, Receives, Matches, FirstMatch, Arrive, Takes;
    } else {
      ArriveShape(t, h);
      NoneMatches(t.overflow, h);
      hide Fits, Receives, Matches, FirstMatch, Arrive, Takes;
    }
  }

  lemma ReceiverTakes(t: Table, s: Step)
    requires Fits(t) && s.ArriveStep? && t.busy.None? && t.enabled
    ensures var u, h := Next(t, s), Header(t.nextMessage, s.matching, s.bits, s.size, s.remoteOffset);
      var i, j := FirstMatch(t.priority, h), FirstMatch(t.overflow, h);
      i < |t.priority| || j < |t.overflow| ==>
        var e := if i < |t.priority| then t.priority[i] else t.overflow[j];
        && (e in t.priority || e in t.overflow) && Receives(t, s, e) && Takes(t, u, e, h)
        && u.nextMessage == t.nextMessage + 1 && u.enabled
  {
    var h := Header(t.nextMessage, s.matching, s.bits, s.size, s.remoteOffset);
    var i, j := FirstMatch(t.priority, h), FirstMatch(t.overflow, h);
    if i < |t.priority| || j < |t.overflow| {
      var e := if i < |t.priority| then t.priority[i] else t.overflow[j];
      ArriveShape(t, h);
      FoundListed(t, h);
      ReceiverFound(t, s, e);
      IsEntry(t, e);
      PairDelivers(e, h);
      ArrivalEnables(t, s);
      hide Fits, Receives, Matches, Accepted, Put, FirstMatch, Arrive, Pair, Delivers, Linked;
    }
  }

  lemma ArrivalEnables(t: Table, s: Step)
    requires s.ArriveStep?
    ensures Next(t, s).enabled == t.enabled
  {
  }

  lemma PairDelivers(e: Entry, h: Header)
    requires e.offset <= e.me.length
    ensures Delivers(Pair(e, h, if e.list.Priority? then Direct else ToOverflow), e, h)
  {
  }

  lemma NoneMatches(es: seq<Entry>, h: Header)
    requires FirstMatch(es, h) == |es|
    ensures forall f :: f in es ==> !Matches(f, h)
  {
    hide Matches;
  }

  // ---------------------------------------------------------------- from the append to the unlink

  /** An append in every run: the entry is linked, unused, unless it is for one use and a pending header was waiting for
      it; a priority entry that found one is used. */
  lemma AppendDecides(steps: seq<Step>, d: Descriptor, list: ListKind)
    ensures var t := Run(steps);
      var u, e := Next(t, AppendStep(d, list)), Entry(t.nextEntry, list, d, false, 0, false, false);
      var found := list.Priority? && exists h :: h in t.headers && Matches(e, h);
      && u.nextEntry == t.nextEntry + 1 && u.unlinked == t.unlinked && u.busy == t.busy
      && (Live(u, e.id) <==> !(d.useOnce && found))
      && (Live(u, e.id) ==> EntryOf(u, e.id) == e.(used := found))
  {
    var t := Run(steps);
    RunFits(steps);
    hide Run, Fits, Matches, Live, EntryOf, Append;
    TakesFound(Fresh(t, d, list), t.headers);
    AppendLinks(t, d, list);
  }

  lemma TakesFound(e: Entry, hs: seq<Header>)
    requires !e.used
    ensures Taken(e, hs) != [] <==> exists h :: h in hs && Matches(e, h)
  {
    TakenAndLeft(e, hs);
    hide Matches, Left;
    if Taken(e, hs) == [] {
      forall h | h in hs ensures !Matches(e, h) { assert h in multiset(hs); }
    } else {
      assert Taken(e, hs)[0] in Taken(e, hs);
    }
    hide Taken;
  }

  lemma AppendLinks(t: Table, d: Descriptor, list: ListKind)
    requires Fits(t)
    ensures var u, e, found := Append(t, d, list), Fresh(t, d, list), TakenBy(t, d, list) != [];
      && u.nextEntry == t.nextEntry + 1 && u.unlinked == t.unlinked && u.busy == t.busy
      && (Live(u, e.id) <==> !(d.useOnce && found))
      && (Live(u, e.id) ==> EntryOf(u, e.id) == e.(used := found))
  {
    var u, e := Append(t, d, list), Fresh(t, d, list);
    var linked := e.(used := TakenBy(t, d, list) != []);
    AppendShape(t, d, list);
    AppendFits(t, d, list);
    BusyIsOld(t);
    hide Fits, TakenBy, Left, Append, Live, EntryOf;
    if linked in u.priority || linked in u.overflow {
      IsEntry(u, linked);
    } else {
      NotLinked(u, e.id);
    }
  }

  lemma NotLinked(t: Table, id: nat)
    requires forall e :: e in t.priority || e in t.overflow ==> e.id != id
    ensures !Live(t, id)
  {
    ListedMembers(t.priority, id);
    ListedMembers(t.overflow, id);
  }

  /** An entry that is neither for one use nor keeps its own offset stays linked, whatever is appended, arrives, is
      handled or unlinked, until a step unlinks it by name. */
  lemma {:induction false} PersistentStays(steps: seq<Step>, d: Descriptor, list: ListKind, more: seq<Step>)
    requires !d.useOnce && !d.manageLocal
    requires forall i :: 0 <= i < |more| ==> more[i] != UnlinkStep(Run(steps).nextEntry)
    ensures var id, t := Run(steps).nextEntry, Run(steps + [AppendStep(d, list)] + more);
      && Live(t, id) && id !in t.unlinked && EntryOf(t, id).me == d && !EntryOf(t, id).needsUnlink
  {
    var all, id := steps + [AppendStep(d, list)] + more, Run(steps).nextEntry;
    var n := |all| - 1;
    RunLast(all);
    RunFits(all);
    hide Run, Next, Live, EntryOf, Fits;
    if more == [] {
      assert all[..n] == steps && all[n] == AppendStep(d, list);
      AppendDecides(steps, d, list);
    } else {
      var before := more[..|more| - 1];
      assert all[..n] == steps + [AppendStep(d, list)] + before && all[n] == more[|more| - 1];
      PersistentStays(steps, d, list, before);
      RunFits(all[..n]);
      LiveEntry(Run(all[..n]), id);
      NextLives(all[..n], all[n], EntryOf(Run(all[..n]), id));
    }
    LiveEntry(Run(all), id);
  }

  /** The last time the table was enabled or disabled counts; it starts enabled. */
  function LastEnabled(steps: seq<Step>): bool {
    if steps == [] then true
    else match steps[|steps| - 1] case EnableStep(enabled) => enabled case _ => LastEnabled(steps[..|steps| - 1])
  }

  lemma {:induction false} EnabledAsSet(steps: seq<Step>)
    ensures Run(steps).enabled == LastEnabled(steps)
  {
    if steps != [] { EnabledAsSet(steps[..|steps| - 1]); }
  }
}
