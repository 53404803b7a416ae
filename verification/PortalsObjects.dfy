/** BxiME and BxiPT as the objects they are, updated in place; `table` says what their fields amount to, and
    every method moves it by the step it implements. */
module PortalsObjects {
  import opened Wire
  import opened Words
  import opened Portals
  import opened PortalsMatching
  import opened PortalsLives

  class BxiME {
    ghost const id: nat
    const list: ListKind
    const me: Descriptor
    var used: bool
    var manageLocalOffset: Size
    var inUse: bool
    var needsUnlink: bool

    ghost function View(): Entry
      reads this
    {
      Entry(id, list, me, used, manageLocalOffset, inUse, needsUnlink)
    }

    constructor (ghost id: nat, d: Descriptor, list: ListKind)
      ensures View() == Entry(id, list, d, false, 0, false, false)
    {
      this.id := id;
      this.list := list;
      me := d;
      used := false;
      manageLocalOffset := 0;
      inUse := false;
      needsUnlink := false;
    }

    method MatchesRequest(req: Header) returns (b: bool)
      ensures b == Matches(View(), req)
      ensures b <==> !(me.useOnce && used) && (req.matching ==> Agree(req.bits, me))
    {
      MatchesBits(View(), req);
      hide BitsMatch, Agree;
      if me.useOnce && used {
        return false;
      }
      if !req.matching {
        return true;
      }
      return BitsMatch(req.bits, me);
    }

    method GetMLength(req: Header) returns (n: Size)
      ensures n == MLength(View(), req.size)
      ensures manageLocalOffset <= me.length ==>
        n == if me.length - manageLocalOffset < req.size then me.length - manageLocalOffset else req.size
    {
      var remaining := Minus(me.length, manageLocalOffset);
      return if remaining < req.size then remaining else req.size;
    }

    method GetOffsettedAddr(req: Header, update: bool) returns (start: Size)
      modifies `manageLocalOffset
      ensures start == StartOf(old(View()), req)
      ensures manageLocalOffset == if update then Advanced(old(View()), req.size) else old(manageLocalOffset)
    {
      if !me.manageLocal {
        return req.remoteOffset;
      }
      start := manageLocalOffset;
      if update {
        manageLocalOffset := Plus(manageLocalOffset, req.size);
        manageLocalOffset := if manageLocalOffset <= me.length then manageLocalOffset else me.length;
      }
    }

    /** What every request handler does first with the entry that was found for it. */
    method Accept(msg: Header) returns (start: Size, mlength: Size)
      requires used
      modifies this
      ensures View() == Accepted(old(View()), msg)
      ensures start == StartOf(old(View()), msg) && mlength == MLength(old(View()), msg.size)
    {
      inUse := true;
      mlength := GetMLength(msg);
      start := GetOffsettedAddr(msg, true);
    }
  }

  /** The objects of a list, in order, hold the entries of `es`. */
  ghost predicate Holds(objects: seq<BxiME>, es: seq<Entry>)
    reads objects
  {
    |objects| == |es| && forall i :: 0 <= i < |es| ==> objects[i].View() == es[i]
  }

  /** One header of a list that is walked over, with `kept` before it: the entry takes it, or it joins `kept`. */
  lemma NextHeader(e: Entry, all: seq<Header>, k: nat, kept: seq<Header>)
    requires k < |all|
    ensures var hs, h, rest := kept + all[k..], all[k], all[k + 1..];
      && hs[|kept|] == h && hs[..|kept|] + hs[|kept| + 1..] == kept + rest && hs == kept + [h] + rest
      && if Matches(e, h)
         then Taken(e, all[k..]) != []
              && kept + Left(e, all[k..]) == kept + if e.me.useOnce then rest else Left(e, rest)
         else Taken(e, all[k..]) == Taken(e, rest) && kept + Left(e, all[k..]) == kept + [h] + Left(e, rest)
  {
    assert all[k..] == [all[k]] + all[k + 1..];
    hide Matches;
  }

  lemma NoHeaders(e: Entry, hs: seq<Header>)
    requires hs == []
    ensures Taken(e, hs) == [] && Left(e, hs) == []
  {
  }

  class BxiPT {
    var priorityList: seq<BxiME>
    var overflowList: seq<BxiME>
    var unexpectedHeaders: seq<Header>
    var enabled: bool
    ghost var table: Table

    ghost predicate Valid()
      reads this, priorityList, overflowList
    {
      && Fits(table) && Holds(priorityList, table.priority) && Holds(overflowList, table.overflow)
      && unexpectedHeaders == table.headers && enabled == table.enabled
    }

    constructor ()
      ensures Valid() && table == EMPTY && priorityList == [] && overflowList == []
    {
      priorityList := [];
      overflowList := [];
      unexpectedHeaders := [];
      enabled := true;
      table := EMPTY;
    }

    /** The first entry that takes the message, priority list first; an overflow entry also queues the header. */
    method WalkThroughLists(msg: Header) returns (me: BxiME?)
      requires Valid()
      modifies `unexpectedHeaders, priorityList, overflowList
      ensures var i, j := FirstMatch(table.priority, msg), FirstMatch(table.overflow, msg);
        if !enabled || (i == |priorityList| && j == |overflowList|) then me == null
        else me == if i < |priorityList| then priorityList[i] else overflowList[j]
      ensures unexpectedHeaders ==
        old(unexpectedHeaders) + (if me != null && FirstMatch(table.priority, msg) == |priorityList| then [msg] else [])
      ensures forall o :: (o in priorityList || o in overflowList) && o != me ==> o.View() == old(o.View())
      ensures me != null ==> me.View() == old(me.View()).(used := true)
    {
      if !enabled {
        return null;
      }
      var i := FirstIn(priorityList, table.priority, msg);
      if i < |priorityList| {
        me := priorityList[i];
        me.used := true;
        return;
      }
      i := FirstIn(overflowList, table.overflow, msg);
      if i < |overflowList| {
        me := overflowList[i];
        me.used := true;
        unexpectedHeaders := unexpectedHeaders + [msg];
        return;
      }
      return null;
    }

    /** The walk over one of the lists. */
    static method FirstIn(objects: seq<BxiME>, ghost es: seq<Entry>, msg: Header) returns (i: nat)
      requires Holds(objects, es)
      ensures i == FirstMatch(es, msg)
    {
      i := 0;
      while i < |objects|
        invariant i <= FirstMatch(es, msg)
      {
        var matches := objects[i].MatchesRequest(msg);
        if matches {
          return;
        }
        i := i + 1;
      }
    }

    /** Gives a new entry the pending headers it matches, erasing them while walking over them. */
    method WalkThroughUHs(me: BxiME) returns (matched: bool)
      requires !me.used
      modifies `unexpectedHeaders, me`used
      ensures unexpectedHeaders == Left(old(me.View()), old(unexpectedHeaders))
      ensures matched <==> Taken(old(me.View()), old(unexpectedHeaders)) != []
      ensures me.used == matched
    {
      hide BitsMatch, Taken, Left;
      matched := false;
      var i := 0;
      ghost var e, all, kept, k := me.View(), unexpectedHeaders, [], 0;
      assert all[0..] == all;
      while i < |unexpectedHeaders|
        invariant i == |kept| && 0 <= k <= |all| && unexpectedHeaders == kept + all[k..]
        invariant Left(e, all) == kept + Left(e, all[k..])
        invariant (Taken(e, all) != []) <==> matched || Taken(e, all[k..]) != []
        invariant matched ==> !e.me.useOnce
        invariant me.used == matched
        decreases |all| - k
      {
        var header := unexpectedHeaders[i];
        NextHeader(e, all, k, kept);
        var matches := me.MatchesRequest(header);
        if matches {
          matched := true;
          me.used := true;
          unexpectedHeaders := unexpectedHeaders[..i] + unexpectedHeaders[i + 1..];
          if me.me.useOnce {
            return;
          }
        } else {
          kept := kept + [header];
          i := i + 1;
        }
        k := k + 1;
      }
      NoHeaders(e, all[k..]);
    }

    /** BxiME::append. The new entry is dropped if it is USE_ONCE and took a header. */
    method Append(d: Descriptor, list: ListKind) returns (me: BxiME)
      requires Valid()
      modifies this
      ensures Valid() && table == Portals.Append(old(table), d, list) && fresh(me)
    {
      hide Portals.Append, Fits, Taken, Left, Matches, Pairings;
      ghost var after, taken := Portals.Append(table, d, list), TakenBy(table, d, list) != [];
      AppendFits(table, d, list);
      AppendShape(table, d, list);
      me := new BxiME(table.nextEntry, d, list);
      var matchedUH := false;
      if list.Priority? {
        matchedUH := WalkThroughUHs(me);
      }
      assert matchedUH == taken && me.View() == Fresh(table, d, list).(used := taken);
      assert Holds(priorityList, table.priority) && Holds(overflowList, table.overflow);
      assert unexpectedHeaders == after.headers;
      table := after;
      hide TakenBy;
      if matchedUH && d.useOnce {
        return;
      }
      if list.Priority? {
        priorityList := priorityList + [me];
      } else {
        overflowList := overflowList + [me];
      }
    }

    /** match_entry with the first half of a request handler: the entry is in use from here on. */
    method TakeEntry(msg: Header) returns (me: BxiME?, start: Size, mlength: Size)
      requires Valid()
      modifies `unexpectedHeaders, priorityList, overflowList
      ensures var i, j := FirstMatch(table.priority, msg), FirstMatch(table.overflow, msg);
        var hit := enabled && i < |table.priority|;
        var late := enabled && i == |table.priority| && j < |table.overflow|;
        && Holds(priorityList, if hit then table.priority[i := Accepted(table.priority[i], msg)] else table.priority)
        && Holds(overflowList, if late then table.overflow[j := Accepted(table.overflow[j], msg)] else table.overflow)
        && unexpectedHeaders == table.headers + (if late then [msg] else [])
        && me == (if hit then priorityList[i] else if late then overflowList[j] else null)
        && (me != null ==>
              var e := if hit then table.priority[i] else table.overflow[j];
              me.id == e.id && start == StartOf(e, msg) && mlength == MLength(e, msg.size))
    {
      hide Fits, Matches, FirstMatch, Accepted, MLength, StartOf, Advanced;
      start, mlength := 0, 0;
      IdsApart(table);
      me := WalkThroughLists(msg);
      if me == null {
        return;
      }
      ghost var i, j := FirstMatch(table.priority, msg), FirstMatch(table.overflow, msg);
      ghost var e := if i < |priorityList| then table.priority[i] else table.overflow[j];
      UsedAccepts(e, msg);
      start, mlength := me.Accept(msg);
      assert me.View() == Accepted(e, msg);
      assert forall k :: 0 <= k < |priorityList| && k != i ==> priorityList[k] != me;
      assert forall k :: 0 <= k < |overflowList| && (k != j || i < |priorityList|) ==> overflowList[k] != me;
    }

    /** A request arrives while no handler is at work. */
    method AcceptRequest(msg: Header) returns (me: BxiME?, start: Size, mlength: Size)
      requires Valid() && table.busy.None? && msg.id == table.nextMessage
      modifies this, priorityList, overflowList
      ensures Valid() && table == Arrive(old(table), msg.matching, msg.bits, msg.size, msg.remoteOffset)
      ensures priorityList == old(priorityList) && overflowList == old(overflowList)
      ensures me != null ==> (me in priorityList || me in overflowList) && table.busy == Some(me.id)
      ensures me != null ==>
        var log := old(table).log;
        |table.log| == |log| + 1 && table.log[|log|].start == start && table.log[|log|].mlength == mlength
    {
      hide Fits, Matches, FirstMatch, Arrive, Accepted, Pair, MLength, StartOf, Advanced;
      ArriveFits(table, msg.matching, msg.bits, msg.size, msg.remoteOffset);
      ArriveFound(table, msg);
      ghost var i, j := FirstMatch(table.priority, msg), FirstMatch(table.overflow, msg);
      ghost var after := Arrive(table, msg.matching, msg.bits, msg.size, msg.remoteOffset);
      me, start, mlength := TakeEntry(msg);
      assert Holds(priorityList, after.priority) && Holds(overflowList, after.overflow);
      table := after;
    }

    /** std::remove and erase on one of the lists. */
    static method Erase(objects: seq<BxiME>, ghost es: seq<Entry>, me: BxiME) returns (rest: seq<BxiME>)
      requires Holds(objects, es) && forall i :: 0 <= i < |es| && es[i].id == me.id ==> objects[i] == me
      ensures Holds(rest, Without(es, me.id)) && forall o :: o in rest ==> o in objects
    {
      rest := [];
      var i := 0;
      while i < |objects|
        invariant i <= |objects| && Holds(rest, Without(es[..i], me.id)) && forall o :: o in rest ==> o in objects
      {
        WithoutOne(es[..i], es[i], me.id);
        assert es[..i + 1] == es[..i] + [es[i]];
        if objects[i] != me {
          rest := rest + [objects[i]];
        }
        i := i + 1;
      }
      assert es[..i] == es;
    }

    /** BxiME::unlink: an entry in use is only marked, any other leaves its list. `es` and `fs` are what the
        lists hold at this point of a handler. */
    method UnlinkEntry(me: BxiME, ghost es: seq<Entry>, ghost fs: seq<Entry>)
      requires Holds(priorityList, es) && Holds(overflowList, fs) && AllApart(es, fs)
      requires me in (if me.list.Priority? then priorityList else overflowList)
      modifies `priorityList, `overflowList, me`needsUnlink
      ensures if me.inUse
              then priorityList == old(priorityList) && overflowList == old(overflowList) && me.needsUnlink
              else me.needsUnlink == old(me.needsUnlink)
                   && Holds(priorityList, Without(es, me.id)) && Holds(overflowList, Without(fs, me.id))
    {
      if me.inUse {
        me.needsUnlink := true;
        return;
      }
      OnlyObject(es, fs, priorityList, overflowList, me);
      if me.list.Priority? {
        priorityList := Erase(priorityList, es, me);
        WithoutNone(fs, me.id);
      } else {
        overflowList := Erase(overflowList, fs, me);
        WithoutNone(es, me.id);
      }
    }

    /** maybe_auto_unlink, with the events left out. */
    method MaybeAutoUnlink(me: BxiME, ghost es: seq<Entry>, ghost fs: seq<Entry>) returns (out: bool)
      requires Holds(priorityList, es) && Holds(overflowList, fs) && AllApart(es, fs)
      requires me in (if me.list.Priority? then priorityList else overflowList)
      requires !me.inUse
      modifies `priorityList, `overflowList, me`needsUnlink
      ensures out == AutoUnlinks(old(me.View()))
      ensures out <==> me.me.useOnce || Full(old(me.View()))
      ensures if out then Holds(priorityList, Without(es, me.id)) && Holds(overflowList, Without(fs, me.id))
              else priorityList == old(priorityList) && overflowList == old(overflowList)
                   && me.needsUnlink == old(me.needsUnlink)
    {
      var shouldUnlink :=
        me.me.useOnce || (me.me.manageLocal && Plus(me.manageLocalOffset, me.me.minFree) > me.me.length);
      if !shouldUnlink {
        return false;
      }
      UnlinkEntry(me, es, fs);
      return true;
    }

    /** An entry out of use is auto-unlinked, or else unlinked if that was put off; never both. */
    method Dispose(me: BxiME, ghost es: seq<Entry>, ghost fs: seq<Entry>) returns (gone: bool)
      requires Holds(priorityList, es) && Holds(overflowList, fs) && AllApart(es, fs)
      requires me in (if me.list.Priority? then priorityList else overflowList)
      requires !me.inUse
      modifies `priorityList, `overflowList, me`needsUnlink
      ensures gone == (AutoUnlinks(old(me.View())) || old(me.needsUnlink))
      ensures if gone then Holds(priorityList, Without(es, me.id)) && Holds(overflowList, Without(fs, me.id))
              else Holds(priorityList, es) && Holds(overflowList, fs)
    {
      hide AutoUnlinks, AllApart;
      gone := MaybeAutoUnlink(me, es, fs);
      if !gone && me.needsUnlink {
        UnlinkEntry(me, es, fs);
        gone := true;
      }
    }

    /** The end of a request handler, which took `me`. */
    method FinishRequest(me: BxiME)
      requires Valid() && table.busy == Some(me.id)
      requires me in (if me.list.Priority? then priorityList else overflowList)
      modifies this, me
      ensures Valid() && table == Finish(old(table))
    {
      hide Fits, Put, Without, AutoUnlinks, Finish, AllApart, Live, EntryOf;
      FinishFits(table);
      EntryHeld(table, priorityList, overflowList, me);
      ghost var t, u, e := table, Finish(table), me.View().(inUse := false);
      FinishShape(t, e);
      FitsApart(t);
      OnlyObject(t.priority, t.overflow, priorityList, overflowList, me);
      PutHeld(t, e);
      me.inUse := false;
      assert Holds(priorityList, Put(t.priority, e)) && Holds(overflowList, Put(t.overflow, e));
      var gone := Dispose(me, Put(t.priority, e), Put(t.overflow, e));
      assert Holds(priorityList, u.priority) && Holds(overflowList, u.overflow);
      table := u;
    }

    /** PtlMEUnlink: an overflow entry that a pending header may still have matched stays. */
    method Unlink(me: BxiME) returns (inUse: bool)
      requires Valid()
      requires me in (if me.list.Priority? then priorityList else overflowList)
      modifies this, me
      ensures Valid() && table == Portals.Unlink(old(table), me.id)
      ensures inUse <==> Claimed(old(table), old(me.View()))
    {
      hide Fits, Put, Without, Matches;
      EntryHeld(table, priorityList, overflowList, me);
      inUse := false;
      if me.list.Overflow? {
        inUse := MatchesHeader(me);
      }
      if !inUse {
        UnlinkUnclaimed(me);
      }
    }

    method UnlinkUnclaimed(me: BxiME)
      requires Valid() && !Claimed(table, me.View())
      requires me in (if me.list.Priority? then priorityList else overflowList)
      modifies this, me
      ensures Valid() && table == Portals.Unlink(old(table), me.id)
    {
      hide Fits, Put, Without, Claimed, Portals.Unlink, AllApart;
      ghost var t := table;
      UnlinkFits(t, me.id);
      EntryHeld(t, priorityList, overflowList, me);
      UnlinkShape(t, me.View());
      FitsApart(t);
      OnlyObject(t.priority, t.overflow, priorityList, overflowList, me);
      if me.inUse {
        PutHeld(t, me.View().(needsUnlink := true));
      }
      UnlinkEntry(me, t.priority, t.overflow);
      table := Portals.Unlink(t, me.id);
      assert Holds(priorityList, table.priority) && Holds(overflowList, table.overflow);
    }

    method MatchesHeader(me: BxiME) returns (b: bool)
      requires Valid()
      ensures b <==> exists i :: 0 <= i < |table.headers| && Matches(me.View(), table.headers[i])
    {
      hide Fits, Matches;
      b := false;
      var i := 0;
      while i < |unexpectedHeaders|
        invariant forall k :: 0 <= k < i ==> k < |unexpectedHeaders| && !Matches(me.View(), unexpectedHeaders[k])
      {
        b := me.MatchesRequest(unexpectedHeaders[i]);
        if b {
          return;
        }
        i := i + 1;
      }
    }
  }

  lemma {:induction false} WithoutOne(es: seq<Entry>, e: Entry, id: nat)
    ensures Without(es + [e], id) == Without(es, id) + (if e.id == id then [] else [e])
  {
    if es != [] {
      WithoutOne(es[1..], e, id);
      assert (es + [e])[1..] == es[1..] + [e];
    }
  }

  /** Identities differ within and across the two lists. */
  ghost predicate AllApart(es: seq<Entry>, fs: seq<Entry>) {
    && (forall i, j :: 0 <= i < j < |es| ==> es[i].id != es[j].id)
    && (forall i, j :: 0 <= i < j < |fs| ==> fs[i].id != fs[j].id)
    && (forall i, j :: 0 <= i < |es| && 0 <= j < |fs| ==> es[i].id != fs[j].id)
    && (forall i :: 0 <= i < |es| ==> es[i].list.Priority?) && (forall i :: 0 <= i < |fs| ==> fs[i].list.Overflow?)
  }

  lemma FitsApart(t: Table)
    requires Fits(t)
    ensures AllApart(t.priority, t.overflow)
  {
    IdsApart(t);
    forall i | 0 <= i < |t.priority| ensures t.priority[i].list.Priority? { assert t.priority[i] in t.priority; }
    forall i | 0 <= i < |t.overflow| ensures t.overflow[i].list.Overflow? { assert t.overflow[i] in t.overflow; }
  }

  /** Only `me` has its identity. */
  lemma OnlyObject(es: seq<Entry>, fs: seq<Entry>, priorities: seq<BxiME>, overflows: seq<BxiME>, me: BxiME)
    requires Holds(priorities, es) && Holds(overflows, fs) && AllApart(es, fs)
    requires me in (if me.list.Priority? then priorities else overflows)
    ensures forall i :: 0 <= i < |es| && es[i].id == me.id ==> me.list.Priority? && priorities[i] == me
    ensures forall i :: 0 <= i < |fs| && fs[i].id == me.id ==> me.list.Overflow? && overflows[i] == me
  {
    var own := if me.list.Priority? then priorities else overflows;
    var k :| 0 <= k < |own| && own[k] == me;
    assert (if me.list.Priority? then es[k] else fs[k]) == me.View();
  }

  lemma {:induction false} WithoutNone(es: seq<Entry>, id: nat)
    requires forall i :: 0 <= i < |es| ==> es[i].id != id
    ensures Without(es, id) == es
  {
    if es != [] { WithoutNone(es[1..], id); }
  }

  /** The entry of a linked object is what the object holds. */
  lemma EntryHeld(t: Table, priorities: seq<BxiME>, overflows: seq<BxiME>, me: BxiME)
    requires Fits(t) && Holds(priorities, t.priority) && Holds(overflows, t.overflow)
    requires me in (if me.list.Priority? then priorities else overflows)
    ensures Live(t, me.id) && EntryOf(t, me.id) == me.View()
  {
    var own := if me.list.Priority? then priorities else overflows;
    var es := if me.list.Priority? then t.priority else t.overflow;
    var k :| 0 <= k < |own| && own[k] == me;
    assert es[k] == me.View() && es[k] in es;
    ListedMembers(es, me.id);
    LiveEntry(t, me.id);
    FitsApart(t);
    hide Fits;
    var e := EntryOf(t, me.id);
    if e in t.priority { var i :| 0 <= i < |t.priority| && t.priority[i] == e; }
    else { var i :| 0 <= i < |t.overflow| && t.overflow[i] == e; }
  }

  lemma FinishShape(t: Table, e: Entry)
    requires t.busy == Some(e.id) && Live(t, e.id) && EntryOf(t, e.id).(inUse := false) == e
    ensures var u := Finish(t);
      && u.headers == t.headers && u.enabled == t.enabled
      && if AutoUnlinks(e) || e.needsUnlink
         then u.priority == Without(t.priority, e.id) && u.overflow == Without(t.overflow, e.id)
         else u.priority == Put(t.priority, e) && u.overflow == Put(t.overflow, e)
  {
  }

  lemma UnlinkShape(t: Table, e: Entry)
    requires Live(t, e.id) && EntryOf(t, e.id) == e && !Claimed(t, e)
    ensures var u := Portals.Unlink(t, e.id);
      && u.headers == t.headers && u.enabled == t.enabled
      && if e.inUse
         then u.priority == Put(t.priority, e.(needsUnlink := true))
              && u.overflow == Put(t.overflow, e.(needsUnlink := true))
         else u.priority == Without(t.priority, e.id) && u.overflow == Without(t.overflow, e.id)
  {
  }

  /** Where an entry is replaced, and that it changes nothing about identities; removing it afterwards is
      removing it before. */
  lemma PutHeld(t: Table, e: Entry)
    requires Fits(t) && Live(t, e.id) && e.list == EntryOf(t, e.id).list
    ensures AllApart(Put(t.priority, e), Put(t.overflow, e))
    ensures forall i :: 0 <= i < |t.priority| ==>
      Put(t.priority, e)[i] == if t.priority[i].id == e.id then e else t.priority[i]
    ensures forall i :: 0 <= i < |t.overflow| ==>
      Put(t.overflow, e)[i] == if t.overflow[i].id == e.id then e else t.overflow[i]
    ensures |Put(t.priority, e)| == |t.priority| && |Put(t.overflow, e)| == |t.overflow|
    ensures Without(Put(t.priority, e), e.id) == Without(t.priority, e.id)
    ensures Without(Put(t.overflow, e), e.id) == Without(t.overflow, e.id)
  {
    FitsApart(t);
    InItsList(t, e.id);
    hide Fits, Put, Without, Live, EntryOf;
    PutPointwise(t.priority, e);
    PutPointwise(t.overflow, e);
    PutWithout(t.priority, e);
    PutWithout(t.overflow, e);
    OwnList(t.priority, t.overflow, e);
    hide AllApart;
  }

  lemma OwnList(es: seq<Entry>, fs: seq<Entry>, e: Entry)
    requires AllApart(es, fs) && |Put(es, e)| == |es| && |Put(fs, e)| == |fs|
    requires forall i :: 0 <= i < |es| ==> Put(es, e)[i] == if es[i].id == e.id then e else es[i]
    requires forall i :: 0 <= i < |fs| ==> Put(fs, e)[i] == if fs[i].id == e.id then e else fs[i]
    requires Listed(if e.list.Priority? then es else fs, e.id)
    ensures AllApart(Put(es, e), Put(fs, e))
  {
    hide Put;
    var k := IndexOf(if e.list.Priority? then es else fs, e.id);
    assert (if e.list.Priority? then es[k] else fs[k]).id == e.id;
  }

  lemma PutPointwise(es: seq<Entry>, e: Entry)
    requires forall i, j :: 0 <= i < j < |es| ==> es[i].id != es[j].id
    ensures |Put(es, e)| == |es|
    ensures forall i :: 0 <= i < |es| ==> Put(es, e)[i] == if es[i].id == e.id then e else es[i]
  {
    ListedMembers(es, e.id);
    forall i | 0 <= i < |es| && !Listed(es, e.id) ensures es[i].id != e.id { assert es[i] in es; }
  }

  lemma {:induction false} PutWithout(es: seq<Entry>, e: Entry)
    ensures Without(Put(es, e), e.id) == Without(es, e.id)
  {
    if es != [] && es[0].id != e.id {
      PutWithout(es[1..], e);
      if Listed(es, e.id) { assert Put(es, e) == [es[0]] + Put(es[1..], e); }
    } else if es != [] {
      assert Put(es, e)[1..] == es[1..];
    }
  }

  /** Accepting marks the entry used in any case. */
  lemma UsedAccepts(e: Entry, h: Header)
    ensures var u := e.(used := true);
      Accepted(u, h) == Accepted(e, h) && StartOf(u, h) == StartOf(e, h) && MLength(u, h.size) == MLength(e, h.size)
    ensures forall how :: Pair(e, h, how).start == StartOf(e, h) && Pair(e, h, how).mlength == MLength(e, h.size)
    ensures Accepted(e, h).id == e.id
  {
  }

  lemma ArriveFound(t: Table, h: Header)
    requires t.busy == None && h.id == t.nextMessage
    ensures var u := Arrive(t, h.matching, h.bits, h.size, h.remoteOffset);
      var i, j := FirstMatch(t.priority, h), FirstMatch(t.overflow, h);
      && u.enabled == t.enabled
      && u.priority == (if t.enabled && i < |t.priority|
                        then t.priority[i := Accepted(t.priority[i], h)] else t.priority)
      && u.overflow == (if t.enabled && i == |t.priority| && j < |t.overflow|
                        then t.overflow[j := Accepted(t.overflow[j], h)] else t.overflow)
      && u.headers == t.headers + (if t.enabled && i == |t.priority| && j < |t.overflow| then [h] else [])
      && (t.enabled && (i < |t.priority| || j < |t.overflow|) ==>
            var e := if i < |t.priority| then t.priority[i] else t.overflow[j];
            && u.busy == Some(e.id) && |u.log| == |t.log| + 1
            && u.log[|t.log|].start == StartOf(e, h) && u.log[|t.log|].mlength == MLength(e, h.size))
  {
  }

  lemma IdsApart(t: Table)
    requires Fits(t)
    ensures forall i, j :: 0 <= i < j < |t.priority| ==> t.priority[i].id != t.priority[j].id
    ensures forall i, j :: 0 <= i < j < |t.overflow| ==> t.overflow[i].id != t.overflow[j].id
    ensures forall i, j :: 0 <= i < |t.priority| && 0 <= j < |t.overflow| ==> t.priority[i].id != t.overflow[j].id
  {
    hide LogFits, Unexpected, Linked, Logged;
  }
}
