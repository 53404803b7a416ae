/** What every run on one portal table entry keeps: matching order, and each entry leaving its list once. */
module PortalsMatching {
  import opened Wire
  import opened Words
  import opened Portals

  // ---------------------------------------------------------------- the invariant

  ghost predicate Posted(es: seq<Entry>) {
    forall i, j :: 0 <= i < j < |es| ==> es[i].id < es[j].id
  }

  /** A linked entry: in use exactly while the handler works on it, and a used USE_ONCE entry is in use. */
  ghost predicate Linked(e: Entry, list: ListKind, next: nat, busy: Option<nat>, unlinked: seq<nat>) {
    && e.list == list && e.id < next && e.id !in unlinked && e.offset <= e.me.length
    && (e.inUse <==> busy == Some(e.id)) && (e.needsUnlink ==> e.inUse) && (e.me.useOnce && e.used ==> e.inUse)
  }

  /** Only used entries occur in the log. */
  ghost predicate Logged(e: Entry, log: seq<Pairing>) {
    forall i :: 0 <= i < |log| && log[i].entry.id == e.id ==>
      e.used && log[i].entry.me == e.me && !(log[i].how.AtAppend? && e.me.useOnce)
  }

  ghost predicate ListFits(es: seq<Entry>, list: ListKind, next: nat, busy: Option<nat>, unlinked: seq<nat>,
                           log: seq<Pairing>) {
    && Posted(es)
    && forall e {:trigger e in es} :: e in es ==> Linked(e, list, next, busy, unlinked) && Logged(e, log)
  }

  ghost predicate Apart(es: seq<Entry>, fs: seq<Entry>) {
    forall e, f :: e in es && f in fs ==> e.id != f.id
  }

  /** Pending headers are in order of arrival, and no linked priority entry matches any of them. */
  ghost predicate Unexpected(es: seq<Entry>, hs: seq<Header>, next: nat) {
    && (forall i, j :: 0 <= i < j < |hs| ==> hs[i].id < hs[j].id)
    && (forall h :: h in hs ==> h.id < next)
    && (forall e, h :: e in es && h in hs ==> !Matches(e, h))
  }

  ghost predicate LeftOnce(unlinked: seq<nat>, next: nat) {
    && (forall i, j :: 0 <= i < j < |unlinked| ==> unlinked[i] != unlinked[j])
    && (forall i :: 0 <= i < |unlinked| ==> unlinked[i] < next)
  }

  /** A USE_ONCE entry pairs once; a message pairs once, or once with an overflow entry and then once with an
      appended one. */
  ghost predicate LogFits(log: seq<Pairing>, nextEntry: nat, nextMessage: nat, hs: seq<Header>, unlinked: seq<nat>) {
    && (forall i :: 0 <= i < |log| ==> log[i].entry.id < nextEntry && log[i].message.id < nextMessage)
    && (forall i, j :: 0 <= i < j < |log| && log[i].entry.id == log[j].entry.id ==>
          !log[i].entry.me.useOnce && log[j].entry.me == log[i].entry.me)
    && (forall i, j :: 0 <= i < j < |log| && log[i].message.id == log[j].message.id ==>
          log[i].how.ToOverflow? && log[j].how.AtAppend?)
    && (forall i, h :: 0 <= i < |log| && h in hs && log[i].message.id == h.id ==> log[i].how.ToOverflow?)
    && (forall i :: 0 <= i < |log| && log[i].how.AtAppend? && log[i].entry.me.useOnce ==> log[i].entry.id !in unlinked)
  }

  ghost predicate Fits(t: Table) {
    && ListFits(t.priority, Priority, t.nextEntry, t.busy, t.unlinked, t.log)
    && ListFits(t.overflow, Overflow, t.nextEntry, t.busy, t.unlinked, t.log)
    && Apart(t.priority, t.overflow)
    && (t.busy.Some? ==> Live(t, t.busy.value))
    && Unexpected(t.priority, t.headers, t.nextMessage)
    && LeftOnce(t.unlinked, t.nextEntry)
    && LogFits(t.log, t.nextEntry, t.nextMessage, t.headers, t.unlinked)
  }

  // ---------------------------------------------------------------- lists

  lemma {:induction false} WithoutMembers(es: seq<Entry>, id: nat)
    ensures forall e :: e in Without(es, id) <==> e in es && e.id != id
    ensures Posted(es) ==> Posted(Without(es, id))
  {
    if es != [] {
      WithoutMembers(es[1..], id);
      assert es == [es[0]] + es[1..];
    }
  }

  lemma ListedMembers(es: seq<Entry>, id: nat)
    ensures Listed(es, id) <==> exists e :: e in es && e.id == id
    ensures Listed(es, id) ==> es[IndexOf(es, id)] in es
  {
    if e :| e in es && e.id == id {
      var k :| 0 <= k < |es| && es[k] == e;
    }
  }

  lemma UniqueInList(es: seq<Entry>, e: Entry, f: Entry)
    requires Posted(es) && e in es && f in es && e.id == f.id
    ensures e == f
  {
  }

  lemma PutMembers(es: seq<Entry>, e: Entry)
    requires Posted(es)
    ensures Posted(Put(es, e))
    ensures forall f :: f in Put(es, e) <==> (f in es && f.id != e.id) || (f == e && Listed(es, e.id))
  {
    if Listed(es, e.id) {
      var k, es' := IndexOf(es, e.id), Put(es, e);
      assert es'[k] == e;
      forall f | f in es && f.id != e.id ensures f in es' {
        var i :| 0 <= i < |es| && es[i] == f;
        assert es'[i] == f;
      }
      forall f | f in es' ensures (f in es && f.id != e.id) || f == e {
        var i :| 0 <= i < |es'| && es'[i] == f;
        if i != k { assert es[i] == f; }
      }
    } else {
      ListedMembers(es, e.id);
    }
  }

  // ---------------------------------------------------------------- headers

  /** What an appended entry takes and leaves: all matches, or the oldest; the order is kept. */
  lemma {:induction false} TakenAndLeft(e: Entry, hs: seq<Header>)
    requires !e.used
    ensures multiset(hs) == multiset(Taken(e, hs)) + multiset(Left(e, hs))
    ensures forall h :: h in Taken(e, hs) ==> h in hs && Matches(e, h)
    ensures forall h :: h in Left(e, hs) ==> h in hs
    ensures e.me.useOnce ==> |Taken(e, hs)| <= 1
    ensures !e.me.useOnce || Taken(e, hs) == [] ==> forall h :: h in Left(e, hs) ==> !Matches(e, h)
  {
    if hs != [] {
      TakenAndLeft(e, hs[1..]);
      assert hs == [hs[0]] + hs[1..];
      if !Matches(e, hs[0]) { assert Left(e, hs) == [hs[0]] + Left(e, hs[1..]); }
      else if e.me.useOnce { assert Taken(e, hs) == [hs[0]]; }
      else { assert Taken(e, hs) == [hs[0]] + Taken(e, hs[1..]); }
    }
  }

  ghost predicate Ascending(hs: seq<Header>) {
    forall i, j :: 0 <= i < j < |hs| ==> hs[i].id < hs[j].id
  }

  lemma Prepended(h: Header, hs: seq<Header>)
    requires Ascending(hs) && forall g :: g in hs ==> h.id < g.id
    ensures Ascending([h] + hs)
  {
  }

  lemma HeadIsOldest(hs: seq<Header>)
    requires Ascending(hs) && hs != []
    ensures Ascending(hs[1..]) && forall g :: g in hs[1..] ==> hs[0].id < g.id
  {
  }

  lemma {:induction false} OrderKept(e: Entry, hs: seq<Header>)
    requires !e.used && Ascending(hs)
    ensures Ascending(Taken(e, hs)) && Ascending(Left(e, hs))
  {
    if hs != [] {
      HeadIsOldest(hs);
      OrderKept(e, hs[1..]);
      TakenAndLeft(e, hs[1..]);
      hide Ascending, Matches;
      Prepended(hs[0], Taken(e, hs[1..]));
      Prepended(hs[0], Left(e, hs[1..]));
      Prepended(hs[0], []);
    }
  }

  /** What is taken is older than every match that is left, and is not left itself. */
  lemma {:induction false} OldestTaken(e: Entry, hs: seq<Header>, h: Header, l: Header)
    requires !e.used && Ascending(hs) && h in Taken(e, hs) && l in Left(e, hs)
    ensures h.id != l.id && (Matches(e, l) ==> h.id < l.id)
  {
    HeadIsOldest(hs);
    TakenAndLeft(e, hs[1..]);
    hide Ascending;
    if !Matches(e, hs[0]) {
      if l != hs[0] { OldestTaken(e, hs[1..], h, l); }
    } else if !e.me.useOnce && h != hs[0] {
      OldestTaken(e, hs[1..], h, l);
    }
  }

  // ---------------------------------------------------------------- one entry changes

  /** Entries other than `id` do not care whether the handler takes or releases `id`. */
  lemma OthersLinked(e: Entry, list: ListKind, next: nat, busy: Option<nat>, busy': Option<nat>, unlinked: seq<nat>,
                     id: nat)
    requires Linked(e, list, next, busy, unlinked) && e.id != id
    requires (busy == None || busy == Some(id)) && (busy' == None || busy' == Some(id))
    ensures Linked(e, list, next, busy', unlinked)
  {
  }

  lemma PutFits(es: seq<Entry>, e: Entry, list: ListKind, next: nat, busy: Option<nat>, busy': Option<nat>,
                unlinked: seq<nat>, log: seq<Pairing>, log': seq<Pairing>)
    requires ListFits(es, list, next, busy, unlinked, log)
    requires (busy == None || busy == Some(e.id)) && (busy' == None || busy' == Some(e.id))
    requires Listed(es, e.id) ==> Linked(e, list, next, busy', unlinked) && Logged(e, log')
    requires forall f :: f in es && f.id != e.id && Logged(f, log) ==> Logged(f, log')
    ensures ListFits(Put(es, e), list, next, busy', unlinked, log')
  {
    PutMembers(es, e);
    ListedMembers(es, e.id);
    hide Linked, Logged, Put, Posted;
    forall f | f in Put(es, e) ensures Linked(f, list, next, busy', unlinked) && Logged(f, log') {
      if f != e || !Listed(es, e.id) { OthersLinked(f, list, next, busy, busy', unlinked, e.id); }
    }
  }

  lemma WithoutFits(es: seq<Entry>, id: nat, list: ListKind, next: nat, busy: Option<nat>, busy': Option<nat>,
                    unlinked: seq<nat>, log: seq<Pairing>)
    requires ListFits(es, list, next, busy, unlinked, log)
    requires busy' == busy || ((busy == None || busy == Some(id)) && busy' == None)
    ensures ListFits(Without(es, id), list, next, busy', unlinked + [id], log)
  {
    WithoutMembers(es, id);
    hide Logged, Posted, Without;
    forall e | e in Without(es, id) ensures Linked(e, list, next, busy', unlinked + [id]) && Logged(e, log) {
      assert Linked(e, list, next, busy, unlinked);
    }
  }

  // ---------------------------------------------------------------- Append

  lemma AppendedList(es: seq<Entry>, e: Entry, list: ListKind, next: nat, busy: Option<nat>, unlinked: seq<nat>,
                     log: seq<Pairing>, log': seq<Pairing>)
    requires ListFits(es, list, next, busy, unlinked, log)
    requires e.id == next && Linked(e, list, next + 1, busy, unlinked) && Logged(e, log')
    requires forall f :: f in es && Logged(f, log) ==> Logged(f, log')
    ensures ListFits(es + [e], list, next + 1, busy, unlinked, log')
  {
    hide Logged;
    forall i | 0 <= i < |es| ensures es[i].id < next { assert es[i] in es; }
  }

  lemma LaterList(es: seq<Entry>, list: ListKind, next: nat, busy: Option<nat>, unlinked: seq<nat>,
                  log: seq<Pairing>, log': seq<Pairing>)
    requires ListFits(es, list, next, busy, unlinked, log)
    requires forall f :: f in es && Logged(f, log) ==> Logged(f, log')
    ensures ListFits(es, list, next + 1, busy, unlinked, log')
  {
    hide Logged;
  }

  lemma MoreLogged(f: Entry, log: seq<Pairing>, more: seq<Pairing>)
    requires Logged(f, log) && forall i :: 0 <= i < |more| ==> more[i].entry.id != f.id
    ensures Logged(f, log + more)
  {
  }

  lemma AppendLog(e: Entry, hs: seq<Header>, log: seq<Pairing>, nextEntry: nat, nextMessage: nat, unlinked: seq<nat>)
    requires LogFits(log, nextEntry, nextMessage, hs, unlinked) && LeftOnce(unlinked, nextEntry)
    requires !e.used && e.id == nextEntry && Ascending(hs) && forall h :: h in hs ==> h.id < nextMessage
    ensures LogFits(log + Pairings(e, Taken(e, hs)), nextEntry + 1, nextMessage, Left(e, hs), unlinked)
  {
    var more := Pairings(e, Taken(e, hs));
    TakenAndLeft(e, hs);
    OrderKept(e, hs);
    forall h, l | h in Taken(e, hs) && l in Left(e, hs) ensures h.id != l.id { OldestTaken(e, hs, h, l); }
    forall i | 0 <= i < |more|
      ensures more[i].entry == e && more[i].how.AtAppend? && more[i].message in Taken(e, hs)
    {
    }
    forall i, j | 0 <= i < j < |more| ensures more[i].message.id < more[j].message.id { }
    hide Taken, Left, Matches, Pairings, Ascending, LogFits, LeftOnce;
    FreshEntry(unlinked, nextEntry);
    JoinedLog(log, more, e, nextEntry, nextMessage, hs, Left(e, hs), unlinked);
  }

  lemma FreshEntry(unlinked: seq<nat>, next: nat)
    requires LeftOnce(unlinked, next)
    ensures next !in unlinked
  {
  }

  lemma JoinedLog(log: seq<Pairing>, more: seq<Pairing>, e: Entry, nextEntry: nat, nextMessage: nat, hs: seq<Header>,
                  left: seq<Header>, unlinked: seq<nat>)
    requires LogFits(log, nextEntry, nextMessage, hs, unlinked) && e.id == nextEntry && nextEntry !in unlinked
    requires forall h :: h in hs ==> h.id < nextMessage
    requires forall i :: 0 <= i < |more| ==> more[i].entry == e && more[i].how.AtAppend? && more[i].message in hs
    requires forall i, j :: 0 <= i < j < |more| ==> more[i].message.id < more[j].message.id
    requires forall l :: l in left ==> l in hs && forall i :: 0 <= i < |more| ==> more[i].message.id != l.id
    requires e.me.useOnce ==> |more| <= 1
    ensures LogFits(log + more, nextEntry + 1, nextMessage, left, unlinked)
  {
  }

  /** The entry as it is linked, if it is linked, and what it took. */
  function Fresh(t: Table, d: Descriptor, list: ListKind): Entry {
    Entry(t.nextEntry, list, d, false, 0, false, false)
  }

  function TakenBy(t: Table, d: Descriptor, list: ListKind): seq<Header> {
    if list.Priority? then Taken(Fresh(t, d, list), t.headers) else []
  }

  lemma AppendShape(t: Table, d: Descriptor, list: ListKind)
    ensures var e, taken, u := Fresh(t, d, list), TakenBy(t, d, list), Append(t, d, list);
      var linked, isLinked := e.(used := taken != []), !(taken != [] && d.useOnce);
      && u.log == t.log + Pairings(e, taken) && u.nextEntry == t.nextEntry + 1 && u.nextMessage == t.nextMessage
      && u.busy == t.busy && u.unlinked == t.unlinked && u.enabled == t.enabled
      && u.headers == (if list.Priority? then Left(e, t.headers) else t.headers)
      && u.priority == (if list.Priority? && isLinked then t.priority + [linked] else t.priority)
      && u.overflow == (if list.Overflow? && isLinked then t.overflow + [linked] else t.overflow)
  {
  }

  lemma AppendedLog(t: Table, d: Descriptor, list: ListKind)
    requires Fits(t)
    ensures var u := Append(t, d, list); LogFits(u.log, u.nextEntry, u.nextMessage, u.headers, u.unlinked)
  {
    AppendShape(t, d, list);
    hide Append, ListFits, Live, Apart;
    if list.Priority? {
      AppendLog(Fresh(t, d, list), t.headers, t.log, t.nextEntry, t.nextMessage, t.unlinked);
    } else {
      assert Append(t, d, list).log == t.log;
      LaterLog(t.log, t.nextEntry, t.nextMessage, t.headers, t.unlinked);
    }
  }

  lemma AppendedHeaders(t: Table, d: Descriptor, list: ListKind)
    requires Fits(t)
    ensures var u := Append(t, d, list); Unexpected(u.priority, u.headers, u.nextMessage)
  {
    AppendShape(t, d, list);
    var e, u := Fresh(t, d, list), Append(t, d, list);
    TakenAndLeft(e, t.headers);
    OrderKept(e, t.headers);
    hide Append, Taken, Left, ListFits, LogFits, Live, Apart;
    forall f, h | f in u.priority && h in u.headers ensures !Matches(f, h) {
      if f !in t.priority { assert f == e.(used := TakenBy(t, d, list) != []); }
    }
  }

  lemma AppendedLists(t: Table, d: Descriptor, list: ListKind)
    requires Fits(t)
    ensures var u := Append(t, d, list);
      && ListFits(u.priority, Priority, u.nextEntry, u.busy, u.unlinked, u.log)
      && ListFits(u.overflow, Overflow, u.nextEntry, u.busy, u.unlinked, u.log)
  {
    AppendShape(t, d, list);
    BusyIsOld(t);
    var e, taken, u := Fresh(t, d, list), TakenBy(t, d, list), Append(t, d, list);
    var linked := e.(used := taken != []);
    if !(taken != [] && d.useOnce) { NewLogged(t, e, taken, linked); }
    hide Append, Taken, Left, LogFits, Logged, Live, Apart, Unexpected, TakenBy;
    forall f | f in t.priority || f in t.overflow ensures Logged(f, t.log) ==> Logged(f, u.log) {
      if Logged(f, t.log) { MoreLogged(f, t.log, Pairings(e, taken)); }
    }
    LaterList(t.priority, Priority, t.nextEntry, t.busy, t.unlinked, t.log, u.log);
    LaterList(t.overflow, Overflow, t.nextEntry, t.busy, t.unlinked, t.log, u.log);
    if !(taken != [] && d.useOnce) {
      AppendedList(if list.Priority? then t.priority else t.overflow, linked, list, t.nextEntry, t.busy, t.unlinked,
                   t.log, u.log);
    }
  }

  lemma AppendFits(t: Table, d: Descriptor, list: ListKind)
    requires Fits(t)
    ensures Fits(Append(t, d, list))
  {
    AppendedLog(t, d, list);
    AppendedHeaders(t, d, list);
    AppendedLists(t, d, list);
    AppendShape(t, d, list);
    BusyIsOld(t);
    AppendedLive(t, d, list);
    AppendedApart(t, d, list);
    hide Append, LogFits, ListFits, Unexpected, TakenBy, Live, Apart;
  }

  lemma AppendedLive(t: Table, d: Descriptor, list: ListKind)
    requires Fits(t)
    ensures var u := Append(t, d, list); u.busy.Some? ==> Live(u, u.busy.value)
  {
    AppendShape(t, d, list);
    LiveLater(t, Fresh(t, d, list).(used := TakenBy(t, d, list) != []), list);
    hide Append, LogFits, ListFits, Unexpected, TakenBy, Listed, Left;
  }

  lemma AppendedApart(t: Table, d: Descriptor, list: ListKind)
    requires Fits(t)
    ensures var u := Append(t, d, list); Apart(u.priority, u.overflow)
  {
    AppendShape(t, d, list);
    BusyIsOld(t);
    hide Append, LogFits, ListFits, Unexpected, TakenBy, Live, Left;
  }

  lemma BusyIsOld(t: Table)
    requires Fits(t)
    ensures t.busy.Some? ==> t.busy.value < t.nextEntry
    ensures t.nextEntry !in t.unlinked
    ensures forall e :: e in t.priority || e in t.overflow ==> e.id < t.nextEntry
  {
    if t.busy.Some? {
      ListedMembers(t.priority, t.busy.value);
      ListedMembers(t.overflow, t.busy.value);
    }
  }

  lemma LaterLog(log: seq<Pairing>, nextEntry: nat, nextMessage: nat, hs: seq<Header>, unlinked: seq<nat>)
    requires LogFits(log, nextEntry, nextMessage, hs, unlinked)
    ensures LogFits(log, nextEntry + 1, nextMessage, hs, unlinked)
  {
  }

  lemma NewLogged(t: Table, e: Entry, taken: seq<Header>, linked: Entry)
    requires LogFits(t.log, t.nextEntry, t.nextMessage, t.headers, t.unlinked) && e.id == t.nextEntry
    requires linked == e.(used := taken != []) && !(taken != [] && e.me.useOnce)
    ensures Logged(linked, t.log + Pairings(e, taken))
  {
  }

  lemma LiveLater(t: Table, e: Entry, list: ListKind)
    ensures t.busy.Some? && Live(t, t.busy.value) ==>
      Live(if list.Priority? then t.(priority := t.priority + [e]) else t.(overflow := t.overflow + [e]), t.busy.value)
  {
    if t.busy.Some? && Live(t, t.busy.value) {
      ListedMembers(t.priority, t.busy.value);
      ListedMembers(t.overflow, t.busy.value);
      ListedMembers(t.priority + [e], t.busy.value);
      ListedMembers(t.overflow + [e], t.busy.value);
    }
  }

  // ---------------------------------------------------------------- Arrive

  lemma UpdateIsPut(es: seq<Entry>, i: nat, e: Entry)
    requires Posted(es) && i < |es| && es[i].id == e.id
    ensures es[i := e] == Put(es, e) && Listed(es, e.id)
  {
    ListedMembers(es, e.id);
    assert IndexOf(es, e.id) == i;
  }

  lemma PutElsewhere(es: seq<Entry>, e: Entry)
    requires forall f :: f in es ==> f.id != e.id
    ensures Put(es, e) == es && !Listed(es, e.id)
  {
    ListedMembers(es, e.id);
  }

  /** The handler's entry after the message was accepted. */
  lemma AcceptedFits(e: Entry, h: Header, list: ListKind, next: nat, unlinked: seq<nat>, log: seq<Pairing>, how: How)
    requires Linked(e, list, next, None, unlinked) && Logged(e, log) && Matches(e, h) && !how.AtAppend?
    ensures Linked(Accepted(e, h), list, next, Some(e.id), unlinked)
    ensures Logged(Accepted(e, h), log + [Pair(e, h, how)])
    ensures forall g :: Matches(Accepted(e, h), g) ==> Matches(e, g)
  {
  }

  lemma ArriveLog(e: Entry, h: Header, how: How, log: seq<Pairing>, nextEntry: nat, next: nat, hs: seq<Header>,
                  unlinked: seq<nat>)
    requires LogFits(log, nextEntry, next, hs, unlinked) && h.id == next && e.id < nextEntry
    requires Logged(e, log) && Matches(e, h) && !how.AtAppend? && forall g :: g in hs ==> g.id < next
    ensures LogFits(log + [Pair(e, h, how)], nextEntry, next + 1, if how.ToOverflow? then hs + [h] else hs, unlinked)
  {
    forall i | 0 <= i < |log| && log[i].entry.id == e.id ensures !e.me.useOnce && log[i].entry.me == e.me { }
    hide Logged, Matches;
  }

  lemma ArriveLists(t: Table, e: Entry, h: Header, how: How, u: Table)
    requires Fits(t) && t.busy == None && (e in t.priority || e in t.overflow) && Matches(e, h) && !how.AtAppend?
    requires u.priority == Put(t.priority, Accepted(e, h)) && u.overflow == Put(t.overflow, Accepted(e, h))
    requires u.log == t.log + [Pair(e, h, how)] && u.busy == Some(e.id) && u.nextEntry == t.nextEntry
    requires u.unlinked == t.unlinked
    ensures ListFits(u.priority, Priority, u.nextEntry, u.busy, u.unlinked, u.log)
    ensures ListFits(u.overflow, Overflow, u.nextEntry, u.busy, u.unlinked, u.log)
  {
    var e' := Accepted(e, h);
    AcceptedFits(e, h, e.list, t.nextEntry, t.unlinked, t.log, how);
    ListedMembers(t.priority, e.id);
    ListedMembers(t.overflow, e.id);
    assert e.list == if e in t.priority then Priority else Overflow;
    forall f | (f in t.priority || f in t.overflow) && f.id != e.id ensures Logged(f, t.log) ==> Logged(f, u.log) {
      if Logged(f, t.log) { MoreLogged(f, t.log, [Pair(e, h, how)]); }
    }
    hide Logged, Linked, Put, Posted, Unexpected, LogFits, LeftOnce, Listed, Accepted, Pair, Matches;
    PutFits(t.priority, e', Priority, t.nextEntry, None, u.busy, t.unlinked, t.log, u.log);
    PutFits(t.overflow, e', Overflow, t.nextEntry, None, u.busy, t.unlinked, t.log, u.log);
  }

  /** The entry is still listed, apart from the others, and matches no more than before. */
  lemma ArriveRest(t: Table, e: Entry, h: Header, how: How, u: Table)
    requires Fits(t) && t.busy == None && (e in t.priority || e in t.overflow) && Matches(e, h) && !how.AtAppend?
    requires u.priority == Put(t.priority, Accepted(e, h)) && u.overflow == Put(t.overflow, Accepted(e, h))
    ensures Apart(u.priority, u.overflow) && Live(u, e.id)
    ensures forall f, g :: f in u.priority && (forall f' :: f' in t.priority ==> !Matches(f', g)) ==> !Matches(f, g)
  {
    var e' := Accepted(e, h);
    AcceptedFits(e, h, e.list, t.nextEntry, t.unlinked, t.log, how);
    ListedMembers(t.priority, e.id);
    ListedMembers(t.overflow, e.id);
    PutMembers(t.priority, e');
    PutMembers(t.overflow, e');
    ListedMembers(u.priority, e.id);
    ListedMembers(u.overflow, e.id);
    hide Logged, Linked, Put, Posted, Unexpected, LogFits, LeftOnce, Listed, Accepted, Pair, Matches;
  }

  /** How an arriving message is matched: first the priority list, then the overflow list. */
  lemma ArriveShape(t: Table, h: Header)
    requires Fits(t) && t.busy == None && t.enabled && h.id == t.nextMessage
    ensures var u := Arrive(t, h.matching, h.bits, h.size, h.remoteOffset);
      var i, j := FirstMatch(t.priority, h), FirstMatch(t.overflow, h);
      && u.nextEntry == t.nextEntry && u.unlinked == t.unlinked && u.nextMessage == t.nextMessage + 1
      && (i == |t.priority| && j == |t.overflow| ==> u == t.(nextMessage := t.nextMessage + 1))
      && (i < |t.priority| || j < |t.overflow| ==>
            var e := if i < |t.priority| then t.priority[i] else t.overflow[j];
            var how := if i < |t.priority| then Direct else ToOverflow;
            && u.priority == Put(t.priority, Accepted(e, h)) && u.overflow == Put(t.overflow, Accepted(e, h))
            && u.log == t.log + [Pair(e, h, how)] && u.busy == Some(e.id)
            && u.headers == if how.ToOverflow? then t.headers + [h] else t.headers)
  {
    var i, j := FirstMatch(t.priority, h), FirstMatch(t.overflow, h);
    hide LogFits, Unexpected, Linked, Logged;
    if i < |t.priority| {
      assert t.priority[i] in t.priority;
      UpdateIsPut(t.priority, i, Accepted(t.priority[i], h));
      PutElsewhere(t.overflow, Accepted(t.priority[i], h));
    } else if j < |t.overflow| {
      assert t.overflow[j] in t.overflow;
      UpdateIsPut(t.overflow, j, Accepted(t.overflow[j], h));
      PutElsewhere(t.priority, Accepted(t.overflow[j], h));
    }
  }

  lemma ArrivedHeaders(es: seq<Entry>, es': seq<Entry>, hs: seq<Header>, hs': seq<Header>, h: Header)
    requires Unexpected(es, hs, h.id)
    requires forall f, g :: f in es' && (forall f' :: f' in es ==> !Matches(f', g)) ==> !Matches(f, g)
    requires hs' == hs || (hs' == hs + [h] && forall f :: f in es ==> !Matches(f, h))
    ensures Unexpected(es', hs', h.id + 1)
  {
    hide Matches;
    forall f, g | f in es' && g in hs' ensures !Matches(f, g) {
      assert forall f' :: f' in es ==> !Matches(f', g);
    }
  }

  lemma ArrivedFits(t: Table, e: Entry, h: Header, how: How, u: Table)
    requires Fits(t) && t.busy == None && h.id == t.nextMessage && Matches(e, h) && !how.AtAppend?
    requires e in t.priority || e in t.overflow
    requires how.ToOverflow? ==> forall f :: f in t.priority ==> !Matches(f, h)
    requires u.priority == Put(t.priority, Accepted(e, h)) && u.overflow == Put(t.overflow, Accepted(e, h))
    requires u.log == t.log + [Pair(e, h, how)] && u.busy == Some(e.id) && u.nextEntry == t.nextEntry
    requires u.unlinked == t.unlinked
    requires u.headers == (if how.ToOverflow? then t.headers + [h] else t.headers) && u.nextMessage == t.nextMessage + 1
    ensures Fits(u)
  {
    EntryLogged(t, e);
    ArriveLists(t, e, h, how, u);
    ArriveRest(t, e, h, how, u);
    EntryKnown(t, e);
    hide Put, Accepted, Matches, Pair, ListFits, LeftOnce, Live, Linked, Logged, Apart;
    ArrivedHeaders(t.priority, u.priority, t.headers, u.headers, h);
    ArriveLog(e, h, how, t.log, t.nextEntry, t.nextMessage, t.headers, t.unlinked);
    hide LogFits, Unexpected;
  }

  lemma EntryKnown(t: Table, e: Entry)
    requires Fits(t) && (e in t.priority || e in t.overflow)
    ensures e.id < t.nextEntry && forall g :: g in t.headers ==> g.id < t.nextMessage
  {
  }

  lemma DroppedFits(t: Table)
    requires Fits(t)
    ensures Fits(t.(nextMessage := t.nextMessage + 1))
  {
    LaterMessage(t.log, t.nextEntry, t.nextMessage, t.headers, t.unlinked);
    hide ListFits, LogFits, Matches;
  }

  lemma FoundListed(t: Table, h: Header)
    ensures var i, j := FirstMatch(t.priority, h), FirstMatch(t.overflow, h);
      && (i < |t.priority| ==> t.priority[i] in t.priority && Matches(t.priority[i], h))
      && (i == |t.priority| ==> forall f :: f in t.priority ==> !Matches(f, h))
      && (j < |t.overflow| ==> t.overflow[j] in t.overflow && Matches(t.overflow[j], h))
  {
  }

  lemma ArriveFits(t: Table, matching: bool, bits: bv64, size: Size, remoteOffset: Size)
    requires Fits(t)
    ensures Fits(Arrive(t, matching, bits, size, remoteOffset))
  {
    hide Fits, Accepted, Pair, Matches, Put;
    var h := Header(t.nextMessage, matching, bits, size, remoteOffset);
    if t.busy.None? {
      var i, j := FirstMatch(t.priority, h), FirstMatch(t.overflow, h);
      if t.enabled && (i < |t.priority| || j < |t.overflow|) {
        FoundListed(t, h);
        ArriveShape(t, h);
        hide Arrive;
        ArrivedFits(t, if i < |t.priority| then t.priority[i] else t.overflow[j], h,
                    if i < |t.priority| then Direct else ToOverflow, Arrive(t, matching, bits, size, remoteOffset));
      } else {
        DroppedFits(t);
      }
    }
  }

  lemma LaterMessage(log: seq<Pairing>, nextEntry: nat, nextMessage: nat, hs: seq<Header>, unlinked: seq<nat>)
    requires LogFits(log, nextEntry, nextMessage, hs, unlinked)
    ensures LogFits(log, nextEntry, nextMessage + 1, hs, unlinked)
  {
  }

  lemma EntryLogged(t: Table, e: Entry)
    requires Fits(t) && (e in t.priority || e in t.overflow)
    ensures Logged(e, t.log)
    ensures Linked(e, if e in t.priority then Priority else Overflow, t.nextEntry, t.busy, t.unlinked)
  {
  }

  // ---------------------------------------------------------------- Finish and Unlink

  lemma LiveEntry(t: Table, id: nat)
    requires Fits(t) && Live(t, id)
    ensures var e := EntryOf(t, id);
      && e.id == id && (e in t.priority || e in t.overflow) && Logged(e, t.log)
      && Linked(e, if e in t.priority then Priority else Overflow, t.nextEntry, t.busy, t.unlinked)
      && (e.list.Priority? <==> e in t.priority)
  {
    ListedMembers(t.priority, id);
    ListedMembers(t.overflow, id);
  }

  lemma RemoveFits(t: Table, id: nat, busy: Option<nat>)
    requires Fits(t) && Live(t, id)
    requires if t.busy == Some(id) then busy == None else busy == t.busy
    ensures Fits(Remove(t.(busy := busy), id))
    ensures !Live(Remove(t.(busy := busy), id), id)
  {
    LiveEntry(t, id);
    var e, u := EntryOf(t, id), Remove(t.(busy := busy), id);
    RemovedLog(e, t.log, t.nextEntry, t.nextMessage, t.headers, t.unlinked);
    WithoutMembers(t.priority, id);
    WithoutMembers(t.overflow, id);
    RemovedLive(t, id, u);
    RemovedOnce(t.unlinked, id, t.nextEntry);
    hide Linked, Logged, LogFits, LeftOnce, Without, Live, Posted, Matches, EntryOf;
    WithoutFits(t.priority, id, Priority, t.nextEntry, t.busy, busy, t.unlinked, t.log);
    WithoutFits(t.overflow, id, Overflow, t.nextEntry, t.busy, busy, t.unlinked, t.log);
  }

  lemma RemovedOnce(unlinked: seq<nat>, id: nat, next: nat)
    requires LeftOnce(unlinked, next) && id !in unlinked && id < next
    ensures LeftOnce(unlinked + [id], next)
  {
  }

  lemma RemovedLive(t: Table, id: nat, u: Table)
    requires u.priority == Without(t.priority, id) && u.overflow == Without(t.overflow, id)
    ensures !Live(u, id)
    ensures forall k :: k != id && Live(t, k) ==> Live(u, k)
  {
    WithoutMembers(t.priority, id);
    WithoutMembers(t.overflow, id);
    ListedMembers(u.priority, id);
    ListedMembers(u.overflow, id);
    forall k | k != id && Live(t, k) ensures Live(u, k) {
      ListedMembers(t.priority, k);
      ListedMembers(t.overflow, k);
      ListedMembers(u.priority, k);
      ListedMembers(u.overflow, k);
    }
  }

  lemma RemovedLog(e: Entry, log: seq<Pairing>, nextEntry: nat, nextMessage: nat, hs: seq<Header>, unlinked: seq<nat>)
    requires LogFits(log, nextEntry, nextMessage, hs, unlinked) && Logged(e, log)
    ensures LogFits(log, nextEntry, nextMessage, hs, unlinked + [e.id])
  {
  }

  lemma PutLists(t: Table, e: Entry, busy: Option<nat>, list: ListKind)
    requires Fits(t) && Listed(if list.Priority? then t.priority else t.overflow, e.id)
    requires t.busy == None || t.busy == Some(e.id)
    requires busy == None || busy == Some(e.id)
    requires Linked(e, list, t.nextEntry, busy, t.unlinked) && Logged(e, t.log)
    ensures ListFits(Put(t.priority, e), Priority, t.nextEntry, busy, t.unlinked, t.log)
    ensures ListFits(Put(t.overflow, e), Overflow, t.nextEntry, busy, t.unlinked, t.log)
  {
    ListedMembers(t.priority, e.id);
    ListedMembers(t.overflow, e.id);
    hide Linked, Logged, Posted, Put, LogFits, Unexpected, LeftOnce, Live, Listed;
    PutFits(t.priority, e, Priority, t.nextEntry, t.busy, busy, t.unlinked, t.log, t.log);
    PutFits(t.overflow, e, Overflow, t.nextEntry, t.busy, busy, t.unlinked, t.log, t.log);
  }

  lemma PutApart(es: seq<Entry>, fs: seq<Entry>, e: Entry)
    requires Posted(es) && Posted(fs) && Apart(es, fs)
    ensures Apart(Put(es, e), Put(fs, e))
    ensures Listed(es, e.id) || Listed(fs, e.id) ==> Listed(Put(es, e), e.id) || Listed(Put(fs, e), e.id)
  {
    PutMembers(es, e);
    PutMembers(fs, e);
    ListedMembers(es, e.id);
    ListedMembers(fs, e.id);
    ListedMembers(Put(es, e), e.id);
    ListedMembers(Put(fs, e), e.id);
    hide Put;
  }

  /** The entry in use changes in nothing that matching looks at. */
  lemma SetFits(t: Table, e: Entry, busy: Option<nat>)
    requires Fits(t) && Live(t, e.id) && t.busy == Some(e.id) && (busy == None || busy == t.busy)
    requires var f := EntryOf(t, e.id); e.me == f.me && e.used == f.used && e.list == f.list
    requires Linked(e, e.list, t.nextEntry, busy, t.unlinked)
    ensures Fits(SetEntry(t, e).(busy := busy))
  {
    LiveEntry(t, e.id);
    hide Linked, Logged, Put, LogFits, Unexpected, LeftOnce, Listed, Matches, Apart;
    InItsList(t, e.id);
    SameLogged(EntryOf(t, e.id), e, t.log);
    PutLists(t, e, busy, e.list);
    SetHeaders(t.priority, e, t.headers, t.nextMessage);
    PutApart(t.priority, t.overflow, e);
    hide ListFits;
  }

  lemma InItsList(t: Table, id: nat)
    requires Fits(t) && Live(t, id)
    ensures Listed(if EntryOf(t, id).list.Priority? then t.priority else t.overflow, id)
    ensures forall f :: f in t.priority && f.id == id ==> f == EntryOf(t, id)
  {
    LiveEntry(t, id);
    ListedMembers(t.priority, id);
    ListedMembers(t.overflow, id);
  }

  lemma SetHeaders(es: seq<Entry>, e: Entry, hs: seq<Header>, next: nat)
    requires Posted(es) && Unexpected(es, hs, next)
    requires forall f :: f in es && f.id == e.id ==> f.me == e.me && f.used == e.used
    ensures Unexpected(Put(es, e), hs, next)
  {
    PutMembers(es, e);
    ListedMembers(es, e.id);
    hide Put, BitsMatch;
    forall f, h | f in Put(es, e) && h in hs ensures !Matches(f, h) {
      if f == e {
        var g :| g in es && g.id == e.id;
        assert !Matches(g, h);
      }
    }
  }

  lemma SameLogged(f: Entry, e: Entry, log: seq<Pairing>)
    requires Logged(f, log) && e.id == f.id && e.me == f.me && e.used == f.used
    ensures Logged(e, log)
  {
  }

  lemma FinishFits(t: Table)
    requires Fits(t)
    ensures Fits(Finish(t))
  {
    if t.busy.Some? && Live(t, t.busy.value) {
      var id := t.busy.value;
      LiveEntry(t, id);
      hide Fits, Live;
      var e := EntryOf(t, id).(inUse := false);
      if AutoUnlinks(e) || e.needsUnlink { RemoveFits(t, id, None); }
      else {
        SetFits(t, e, None);
        assert Finish(t) == SetEntry(t, e).(busy := None);
      }
    }
  }

  lemma UnlinkFits(t: Table, id: nat)
    requires Fits(t)
    ensures Fits(Unlink(t, id))
  {
    if Live(t, id) && !Claimed(t, EntryOf(t, id)) {
      LiveEntry(t, id);
      hide Fits, Live, Claimed;
      if EntryOf(t, id).inUse {
        SetFits(t, EntryOf(t, id).(needsUnlink := true), t.busy);
        assert Unlink(t, id) == SetEntry(t, EntryOf(t, id).(needsUnlink := true)).(busy := t.busy);
      } else {
        RemoveFits(t, id, t.busy);
        assert Unlink(t, id) == Remove(t.(busy := t.busy), id);
      }
    }
  }

  lemma NextFits(t: Table, s: Step)
    requires Fits(t)
    ensures Fits(Next(t, s))
  {
    match s
    case AppendStep(d, list) => hide Fits, Append; AppendFits(t, d, list);
    case ArriveStep(matching, bits, size, remoteOffset) =>
      hide Fits, Arrive;
      ArriveFits(t, matching, bits, size, remoteOffset);
    case FinishStep => hide Fits, Finish; FinishFits(t);
    case UnlinkStep(id) => hide Fits, Unlink; UnlinkFits(t, id);
    case EnableStep(enabled) => hide ListFits, LogFits, Unexpected;
  }

  lemma {:induction false} RunFits(steps: seq<Step>)
    ensures Fits(Run(steps))
  {
    if steps != [] {
      hide Fits, Next;
      RunFits(steps[..|steps| - 1]);
      NextFits(Run(steps[..|steps| - 1]), steps[|steps| - 1]);
    }
  }

  // ---------------------------------------------------------------- theorems

  /** No linked priority entry matches a pending unexpected header, and headers stay in order of arrival. */
  lemma UnexpectedHeaders(steps: seq<Step>)
    ensures forall e, h :: e in Run(steps).priority && h in Run(steps).headers ==> !Matches(e, h)
    ensures forall i, j :: 0 <= i < j < |Run(steps).headers| ==> Run(steps).headers[i].id < Run(steps).headers[j].id
  {
    RunFits(steps);
    hide ListFits, LogFits, Matches, Run;
  }

  /** A step only adds to the log; an append adds what the entry takes, an arrival at most one pairing. */
  lemma LogGrows(t: Table, s: Step)
    requires Fits(t)
    ensures var u := Next(t, s);
      match s
      case AppendStep(d, list) => u.log == t.log + Pairings(Fresh(t, d, list), TakenBy(t, d, list))
      case ArriveStep(matching, bits, size, remoteOffset) =>
        var h := Header(t.nextMessage, matching, bits, size, remoteOffset);
        var i, j := FirstMatch(t.priority, h), FirstMatch(t.overflow, h);
        if t.busy.Some? || !t.enabled || (i == |t.priority| && j == |t.overflow|) then u.log == t.log
        else
          var pair := if i < |t.priority| then Pair(t.priority[i], h, Direct) else Pair(t.overflow[j], h, ToOverflow);
          u.log == t.log + [pair]
      case _ => u.log == t.log
  {
    hide Fits, Put, Without, Pairings, Matches, Accepted, Pair;
  }

  lemma FirstIsOldest(es: seq<Entry>, h: Header, f: Entry)
    requires Posted(es) && f in es && FirstMatch(es, h) < |es| && f.id < es[FirstMatch(es, h)].id
    ensures !Matches(f, h)
  {
    var k :| 0 <= k < |es| && es[k] == f;
  }

  /** Pairing `k` of `log` overtakes nothing: no priority entry posted earlier matches the message, and none at
      all if the pairing is with an overflow entry; and no older pending message that a priority entry matches
      is passed over. */
  ghost predicate InOrder(t: Table, log: seq<Pairing>, k: nat)
    requires k < |log|
  {
    var p := log[k];
    && (forall f :: f in t.priority && (f.id < p.entry.id || p.how.ToOverflow?) ==> !Matches(f, p.message))
    && (!p.how.ToOverflow? ==>
          forall g :: g in t.headers && g.id < p.message.id && Matches(p.entry, g) ==>
            exists j :: |t.log| <= j < k && log[j].message == g && log[j].entry == p.entry)
  }

  /** Matching order (Portals 4.1, section 3.12), for every pairing any step of any run makes. */
  lemma MatchingOrder(steps: seq<Step>, s: Step, k: nat)
    requires |Run(steps).log| <= k < |Next(Run(steps), s).log|
    ensures InOrder(Run(steps), Next(Run(steps), s).log, k)
  {
    RunFits(steps);
    var t := Run(steps);
    LogGrows(t, s);
    hide Run, Next, Fits, InOrder;
    match s
    case AppendStep(d, list) => AppendInOrder(t, d, list, k);
    case ArriveStep(matching, bits, size, remoteOffset) =>
      ArriveInOrder(t, Header(t.nextMessage, matching, bits, size, remoteOffset));
    case _ =>
  }

  lemma AppendInOrder(t: Table, d: Descriptor, list: ListKind, k: nat)
    requires Fits(t) && |t.log| <= k < |t.log| + |TakenBy(t, d, list)|
    ensures InOrder(t, t.log + Pairings(Fresh(t, d, list), TakenBy(t, d, list)), k)
  {
    hide Fits, Matches, TakenBy;
    var log, n := t.log + Pairings(Fresh(t, d, list), TakenBy(t, d, list)), k - |t.log|;
    forall f | f in t.priority ensures !Matches(f, log[k].message) { NoPriorityMatch(t, d, list, n, f); }
    forall g | g in t.headers && g.id < log[k].message.id && Matches(Fresh(t, d, list), g)
      ensures exists j :: |t.log| <= j < k && log[j].message == g && log[j].entry == log[k].entry
    {
      var j := AppendOrder(t, d, list, n, g);
      assert log[|t.log| + j].message == g && log[|t.log| + j].entry == log[k].entry;
    }
  }

  lemma ArriveInOrder(t: Table, h: Header)
    requires Fits(t)
    ensures var i, j := FirstMatch(t.priority, h), FirstMatch(t.overflow, h);
      && (i < |t.priority| ==> InOrder(t, t.log + [Pair(t.priority[i], h, Direct)], |t.log|))
      && (i == |t.priority| && j < |t.overflow| ==> InOrder(t, t.log + [Pair(t.overflow[j], h, ToOverflow)], |t.log|))
  {
    ArriveOrder(t, h);
    hide Fits, Matches;
  }

  lemma ArriveOrder(t: Table, h: Header)
    requires Fits(t)
    ensures var i, j := FirstMatch(t.priority, h), FirstMatch(t.overflow, h);
      && (i < |t.priority| ==>
            && (forall f :: f in t.priority && f.id < t.priority[i].id ==> !Matches(f, h))
            && (forall g :: g in t.headers ==> !Matches(t.priority[i], g)))
      && (i == |t.priority| ==> forall f :: f in t.priority ==> !Matches(f, h))
  {
    var i := FirstMatch(t.priority, h);
    if i < |t.priority| {
      assert t.priority[i] in t.priority;
      forall f | f in t.priority && f.id < t.priority[i].id ensures !Matches(f, h) { FirstIsOldest(t.priority, h, f); }
    }
    hide LogFits, Linked, Logged, Matches;
  }

  /** Older matches are taken before younger ones. */
  lemma AppendOrder(t: Table, d: Descriptor, list: ListKind, k: nat, g: Header) returns (j: nat)
    requires Fits(t) && k < |TakenBy(t, d, list)|
    requires g in t.headers && g.id < TakenBy(t, d, list)[k].id && Matches(Fresh(t, d, list), g)
    ensures j < k && TakenBy(t, d, list)[j] == g
  {
    hide LogFits, ListFits, Taken, Left, Matches;
    j := OlderTaken(Fresh(t, d, list), t.headers, k, g);
  }

  /** A match older than one that is taken is taken before it. */
  lemma OlderTaken(e: Entry, hs: seq<Header>, k: nat, g: Header) returns (j: nat)
    requires !e.used && Ascending(hs) && k < |Taken(e, hs)|
    requires g in hs && g.id < Taken(e, hs)[k].id && Matches(e, g)
    ensures j < k && Taken(e, hs)[j] == g
  {
    var taken := Taken(e, hs);
    TakenAndLeft(e, hs);
    OrderKept(e, hs);
    assert taken[k] in taken;
    if g in Left(e, hs) { OldestTaken(e, hs, taken[k], g); }
    assert multiset(hs)[g] > 0;
    hide Taken, Left, Matches;
    j :| 0 <= j < |taken| && taken[j] == g;
  }

  lemma NoPriorityMatch(t: Table, d: Descriptor, list: ListKind, k: nat, f: Entry)
    requires Fits(t) && k < |TakenBy(t, d, list)| && f in t.priority
    ensures !Matches(f, TakenBy(t, d, list)[k])
  {
    TakenAndLeft(Fresh(t, d, list), t.headers);
    assert TakenBy(t, d, list)[k] in TakenBy(t, d, list);
    hide LogFits, ListFits, Taken, Left, Matches;
  }

  // ---------------------------------------------------------------- each entry leaves once

  /** An entry that took a header and was never linked. */
  ghost predicate Consumed(log: seq<Pairing>, id: nat) {
    exists i :: 0 <= i < |log| && log[i].entry.id == id && log[i].how.AtAppend? && log[i].entry.me.useOnce
  }

  ghost predicate Accounted(t: Table) {
    forall id: nat {:trigger Live(t, id)} :: id < t.nextEntry ==> Live(t, id) || id in t.unlinked || Consumed(t.log, id)
  }

  lemma AccountKept(t: Table, u: Table)
    requires Accounted(t) && u.nextEntry == t.nextEntry && t.log <= u.log && t.unlinked <= u.unlinked
    requires forall id: nat {:trigger Live(u, id)} :: Live(t, id) ==> Live(u, id) || id in u.unlinked
    ensures Accounted(u)
  {
    forall id: nat | id < u.nextEntry ensures Live(u, id) || id in u.unlinked || Consumed(u.log, id) {
      assert Live(t, id) || id in t.unlinked || Consumed(t.log, id);
      if id in t.unlinked { var k :| 0 <= k < |t.unlinked| && t.unlinked[k] == id; assert u.unlinked[k] == id; }
      if Consumed(t.log, id) {
        var i :| 0 <= i < |t.log| && t.log[i].entry.id == id && t.log[i].how.AtAppend? && t.log[i].entry.me.useOnce;
        assert u.log[i] == t.log[i];
      }
    }
  }

  lemma PutLive(t: Table, u: Table, e: Entry)
    requires Posted(t.priority) && Posted(t.overflow)
    requires u.priority == Put(t.priority, e) && u.overflow == Put(t.overflow, e)
    ensures forall id: nat :: Live(t, id) <==> Live(u, id)
  {
    PutMembers(t.priority, e);
    PutMembers(t.overflow, e);
    forall id: nat ensures Live(t, id) <==> Live(u, id) {
      ListedMembers(t.priority, id);
      ListedMembers(t.overflow, id);
      ListedMembers(u.priority, id);
      ListedMembers(u.overflow, id);
    }
  }

  lemma AppendAccounted(t: Table, d: Descriptor, list: ListKind)
    requires Fits(t) && Accounted(t)
    ensures Accounted(Append(t, d, list))
  {
    AppendShape(t, d, list);
    var e, taken, u := Fresh(t, d, list), TakenBy(t, d, list), Append(t, d, list);
    hide Append, Fits, TakenBy;
    var mid := t.(log := u.log);
    forall id: nat ensures Live(mid, id) <==> Live(t, id) { }
    AccountKept(t, mid);
    forall id: nat | id < u.nextEntry ensures Live(u, id) || id in u.unlinked || Consumed(u.log, id) {
      ListedMembers(t.priority, id);
      ListedMembers(t.overflow, id);
      ListedMembers(u.priority, id);
      ListedMembers(u.overflow, id);
      if id < t.nextEntry { assert Live(mid, id) || id in t.unlinked || Consumed(u.log, id); }
      else if taken != [] && d.useOnce { assert u.log[|t.log|].entry == e && u.log[|t.log|].how.AtAppend?; }
      else { assert e.(used := taken != []) in u.priority || e.(used := taken != []) in u.overflow; }
    }
  }

  lemma NextAccounted(t: Table, s: Step)
    requires Fits(t) && Accounted(t)
    ensures Accounted(Next(t, s))
  {
    hide Accounted, LogFits, Unexpected, Linked, Logged, LeftOnce, Matches, Put, Without, Live, Listed;
    var u := Next(t, s);
    match s
    case AppendStep(d, list) => AppendAccounted(t, d, list);
    case ArriveStep(matching, bits, size, remoteOffset) =>
      ArriveAccounted(t, Header(t.nextMessage, matching, bits, size, remoteOffset));
    case FinishStep =>
      if t.busy.Some? && Live(t, t.busy.value) {
        var id := t.busy.value;
        PutLive(t, SetEntry(t, EntryOf(t, id).(inUse := false)), EntryOf(t, id).(inUse := false));
        LiveEntry(t, id);
        MoveAccounted(t, u, id);
      }
    case UnlinkStep(id) =>
      if Live(t, id) {
        LiveEntry(t, id);
        PutLive(t, SetEntry(t, EntryOf(t, id).(needsUnlink := true)), EntryOf(t, id).(needsUnlink := true));
        MoveAccounted(t, u, id);
      }
    case EnableStep(enabled) => SameLive(t, u); AccountKept(t, u);
  }

  lemma SameLive(t: Table, u: Table)
    requires u.priority == t.priority && u.overflow == t.overflow
    ensures forall id: nat :: Live(t, id) <==> Live(u, id)
  {
  }

  /** The entry `id` was removed, or the lists hold the same entries as before. */
  lemma MoveAccounted(t: Table, u: Table, id: nat)
    requires Accounted(t) && u.nextEntry == t.nextEntry && u.log == t.log
    requires || (u.priority == Without(t.priority, id) && u.overflow == Without(t.overflow, id)
                 && u.unlinked == t.unlinked + [id])
             || (u.unlinked == t.unlinked && Posted(t.priority) && Posted(t.overflow)
                 && (exists e :: u.priority == Put(t.priority, e) && u.overflow == Put(t.overflow, e)))
             || (u.unlinked == t.unlinked && u.priority == t.priority && u.overflow == t.overflow)
    ensures Accounted(u)
  {
    hide Accounted, Put, Without, Live, Posted;
    if u.priority == t.priority && u.overflow == t.overflow {
      SameLive(t, u);
    } else if u.unlinked == t.unlinked {
      var e :| u.priority == Put(t.priority, e) && u.overflow == Put(t.overflow, e);
      PutLive(t, u, e);
    } else {
      RemovedLive(t, id, u);
    }
    AccountKept(t, u);
  }

  lemma ArriveAccounted(t: Table, h: Header)
    requires Fits(t) && Accounted(t) && h.id == t.nextMessage
    ensures Accounted(Arrive(t, h.matching, h.bits, h.size, h.remoteOffset))
  {
    var u := Arrive(t, h.matching, h.bits, h.size, h.remoteOffset);
    var i, j := FirstMatch(t.priority, h), FirstMatch(t.overflow, h);
    hide Accounted, Matches, Put, Live, Listed, LogFits, Unexpected, Linked, Logged, Accepted, Pair;
    if t.busy.None? && t.enabled {
      ArriveShape(t, h);
      hide Arrive;
      if i < |t.priority| || j < |t.overflow| {
        PutLive(t, u, Accepted(if i < |t.priority| then t.priority[i] else t.overflow[j], h));
      } else {
        SameLive(t, u);
      }
    } else {
      SameLive(t, u);
    }
    AccountKept(t, u);
  }

  lemma {:induction false} RunAccounted(steps: seq<Step>)
    ensures Accounted(Run(steps))
  {
    if steps != [] {
      hide Accounted, Next;
      RunAccounted(steps[..|steps| - 1]);
      RunFits(steps[..|steps| - 1]);
      NextAccounted(Run(steps[..|steps| - 1]), steps[|steps| - 1]);
    }
  }

  /** Exactly-once unlink: every entry ever posted is linked and was never unlinked, or was unlinked once, or
      is a USE_ONCE entry that took a header and was never linked. */
  lemma ExactlyOnceUnlink(steps: seq<Step>, id: nat)
    requires id < Run(steps).nextEntry
    ensures var t := Run(steps);
      && multiset(t.unlinked)[id] <= 1
      && (Live(t, id) || id in t.unlinked || Consumed(t.log, id))
      && !(Live(t, id) && id in t.unlinked) && !(Live(t, id) && Consumed(t.log, id))
      && !(id in t.unlinked && Consumed(t.log, id))
  {
    RunFits(steps);
    RunAccounted(steps);
    var t := Run(steps);
    DistinctOnce(t.unlinked, id);
    if Live(t, id) { LiveEntry(t, id); }
  }

  lemma {:induction false} DistinctOnce(ids: seq<nat>, id: nat)
    requires forall i, j :: 0 <= i < j < |ids| ==> ids[i] != ids[j]
    ensures multiset(ids)[id] <= 1
  {
    if ids != [] {
      DistinctOnce(ids[1..], id);
      assert ids == [ids[0]] + ids[1..];
      assert ids[0] !in ids[1..];
    }
  }

  /** A USE_ONCE entry pairs with at most one message in its life, and a message with at most one entry when
      it arrives and, if that was an overflow entry, one that is appended later (section 3.12.2). */
  lemma PairsOnce(steps: seq<Step>, i: nat, j: nat)
    requires i < j < |Run(steps).log|
    ensures var log := Run(steps).log;
      && (log[i].entry.id == log[j].entry.id ==> !log[i].entry.me.useOnce)
      && (log[i].message.id == log[j].message.id ==> log[i].how.ToOverflow? && log[j].how.AtAppend?)
  {
    RunFits(steps);
    hide ListFits, Unexpected;
  }

  /** A linked entry is in use, and meant to be unlinked. */
  ghost predicate Doomed(t: Table, id: nat) {
    && Live(t, id) && t.busy == Some(id)
    && (forall e :: (e in t.priority || e in t.overflow) && e.id == id ==> e.needsUnlink)
  }

  lemma UnlinkDooms(t: Table, id: nat)
    requires Fits(t) && Live(t, id) && t.busy == Some(id)
    requires !Claimed(t, EntryOf(t, id)) || Doomed(t, id)
    ensures Doomed(Unlink(t, id), id)
  {
    if !Claimed(t, EntryOf(t, id)) {
      LiveEntry(t, id);
      var e := EntryOf(t, id).(needsUnlink := true);
      assert Unlink(t, id) == SetEntry(t, e);
      hide Put, Unexpected, LogFits, Claimed;
      PutLive(t, Unlink(t, id), e);
      PutMembers(t.priority, e);
      PutMembers(t.overflow, e);
    }
  }

  /** Another entry is unlinked: at once, because it is not in use. */
  lemma OtherUnlinked(t: Table, id: nat, k: nat)
    requires Fits(t) && Doomed(t, id) && k != id
    ensures Doomed(Unlink(t, k), id)
  {
    if Live(t, k) && !Claimed(t, EntryOf(t, k)) {
      LiveEntry(t, k);
      assert Unlink(t, k) == Remove(t, k);
      hide Claimed, Without, Live, Unlink;
      RemovedLive(t, k, Remove(t, k));
      WithoutMembers(t.priority, k);
      WithoutMembers(t.overflow, k);
    }
  }

  lemma AppendedLater(t: Table, id: nat, d: Descriptor, list: ListKind)
    requires Fits(t) && Doomed(t, id)
    ensures Doomed(Append(t, d, list), id)
  {
    var u := Append(t, d, list);
    AppendShape(t, d, list);
    LiveEntry(t, id);
    hide Append, TakenBy, Listed, Left;
    ListedMembers(t.priority, id);
    ListedMembers(t.overflow, id);
    ListedMembers(u.priority, id);
    ListedMembers(u.overflow, id);
  }

  lemma StaysDoomed(t: Table, s: Step, id: nat)
    requires Fits(t) && Doomed(t, id) && !s.FinishStep?
    ensures Doomed(Next(t, s), id)
  {
    hide Fits, Append, Unlink;
    match s
    case AppendStep(d, list) => AppendedLater(t, id, d, list);
    case ArriveStep(_, _, _, _) =>
    case UnlinkStep(k) => if k == id { UnlinkDooms(t, id); } else { OtherUnlinked(t, id, k); }
    case EnableStep(enabled) => SameLive(t, Next(t, s));
  }

  lemma DoomedLeaves(t: Table, id: nat)
    requires Fits(t) && Doomed(t, id)
    ensures !Live(Finish(t), id) && Finish(t).unlinked == t.unlinked + [id] && id !in t.unlinked
  {
    LiveEntry(t, id);
    hide Live, Without, EntryOf;
    RemovedLive(t, id, Finish(t));
  }

  lemma RunLast(steps: seq<Step>)
    requires steps != []
    ensures Run(steps) == Next(Run(steps[..|steps| - 1]), steps[|steps| - 1])
  {
    hide Next;
  }

  lemma UnlinkIsNext(t: Table, id: nat)
    ensures Next(t, UnlinkStep(id)) == Unlink(t, id)
  {
    hide Unlink;
  }

  lemma {:induction false} DoomedWhile(steps: seq<Step>, id: nat, more: seq<Step>)
    requires var t := Run(steps); Live(t, id) && t.busy == Some(id) && !Claimed(t, EntryOf(t, id))
    requires forall i :: 0 <= i < |more| ==> !more[i].FinishStep?
    ensures Doomed(Run(steps + [UnlinkStep(id)] + more), id)
  {
    var all := steps + [UnlinkStep(id)] + more;
    RunLast(all);
    hide Doomed, Fits, Next, Claimed, Run, Live, EntryOf;
    if more == [] {
      assert all[..|all| - 1] == steps && all[|all| - 1] == UnlinkStep(id);
      UnlinkIsNext(Run(steps), id);
      RunFits(steps);
      UnlinkDooms(Run(steps), id);
    } else {
      var before := more[..|more| - 1];
      assert all[..|all| - 1] == steps + [UnlinkStep(id)] + before && all[|all| - 1] == more[|more| - 1];
      DoomedWhile(steps, id, before);
      RunFits(all[..|all| - 1]);
      StaysDoomed(Run(all[..|all| - 1]), more[|more| - 1], id);
    }
  }

  /** An unlink that finds the entry in use takes effect when the handler is done, whatever else is appended,
      arrives or is unlinked meanwhile, together with an auto-unlink that falls due at the same moment: until
      then the entry stays in its list, and then it leaves it once. */
  lemma DeferredUnlink(steps: seq<Step>, id: nat, more: seq<Step>)
    requires var t := Run(steps); Live(t, id) && t.busy == Some(id) && !Claimed(t, EntryOf(t, id))
    requires forall i :: 0 <= i < |more| ==> !more[i].FinishStep?
    ensures var t := Run(steps + [UnlinkStep(id)] + more); var u := Finish(t);
      Live(t, id) && id !in t.unlinked && !Live(u, id) && u.unlinked == t.unlinked + [id]
  {
    DoomedWhile(steps, id, more);
    RunFits(steps + [UnlinkStep(id)] + more);
    DoomedLeaves(Run(steps + [UnlinkStep(id)] + more), id);
  }

  /** A linked USE_ONCE entry that paired is in use, and is unlinked when its handler is done. */
  lemma UsedOnceLeaves(steps: seq<Step>, e: Entry)
    requires (e in Run(steps).priority || e in Run(steps).overflow) && e.me.useOnce && e.used
    ensures Run(steps).busy == Some(e.id) && Finish(Run(steps)).unlinked == Run(steps).unlinked + [e.id]
  {
    RunFits(steps);
    var t := Run(steps);
    EntryLogged(t, e);
    LiveEntry(t, e.id);
    var f := EntryOf(t, e.id);
    if f in t.priority && e in t.priority { UniqueInList(t.priority, e, f); }
    if f in t.overflow && e in t.overflow { UniqueInList(t.overflow, e, f); }
    hide LogFits, Unexpected;
  }
}
