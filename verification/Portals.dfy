/** One portal table entry: its two lists of match entries, its unexpected headers, and what appends, arrivals
    and unlinks do to them (Portals 4.1, sections 3.12, 3.12.1 and 3.12.2). */
module Portals {
  import opened Wire
  import opened Words

  /** What the user posts; a list entry is the case where requests do not ask for matching. */
  datatype Descriptor = Descriptor(
    bits: bv64, ignore: bv64, useOnce: bool, manageLocal: bool, length: Size, minFree: Size)

  /** A posted entry. Identities are given out in posting order. */
  datatype Entry = Entry(
    id: nat, list: ListKind, me: Descriptor, used: bool, offset: Size, inUse: bool, needsUnlink: bool)

  /** A request message at the target. Identities are given out in order of arrival. */
  datatype Header = Header(id: nat, matching: bool, bits: bv64, size: Size, remoteOffset: Size)

  datatype How = Direct | ToOverflow | AtAppend

  /** One pairing of an entry, as it was just before, with a message. */
  datatype Pairing = Pairing(entry: Entry, message: Header, how: How, start: Size, mlength: Size)

  /** `busy` is the entry the target's handler is working on; `log` and `unlinked` are history. */
  datatype Table = Table(
    priority: seq<Entry>,
    overflow: seq<Entry>,
    headers: seq<Header>,
    enabled: bool,
    busy: Option<nat>,
    nextEntry: nat,
    nextMessage: nat,
    log: seq<Pairing>,
    unlinked: seq<nat>)

  const EMPTY := Table([], [], [], true, None, 0, 0, [], [])

  // ---------------------------------------------------------------- BxiME

  predicate BitsMatch(bits: bv64, me: Descriptor) {
    (bits ^ me.bits) & !me.ignore == 0
  }

  /** matches_request. */
  predicate Matches(e: Entry, h: Header) {
    if e.me.useOnce && e.used then false else !h.matching || BitsMatch(h.bits, e.me)
  }

  /** get_mlength, in 64-bit arithmetic; it does not look at the remote offset. */
  function MLength(e: Entry, size: Size): Size {
    var remaining := Minus(e.me.length, e.offset);
    if remaining < size then remaining else size
  }

  /** The target offset get_offsetted_addr reports. */
  function StartOf(e: Entry, h: Header): Size {
    if e.me.manageLocal then e.offset else h.remoteOffset
  }

  /** The locally managed offset after a message of `size` bytes: a 64-bit sum, capped at the length. */
  function Advanced(e: Entry, size: Size): Size {
    if e.me.manageLocal
    then var sum := Plus(e.offset, size); if sum <= e.me.length then sum else e.me.length
    else e.offset
  }

  /** The test of maybe_auto_unlink, in 64-bit arithmetic. */
  predicate AutoUnlinks(e: Entry) {
    e.me.useOnce || (e.me.manageLocal && Plus(e.offset, e.me.minFree) > e.me.length)
  }

  /** What a request handler does to the entry it matched. */
  function Accepted(e: Entry, h: Header): Entry {
    e.(used := true, inUse := true, offset := Advanced(e, h.size))
  }

  // ---------------------------------------------------------------- BxiPT

  /** The first entry of a list that matches, or the length of the list. */
  function FirstMatch(es: seq<Entry>, h: Header): (i: nat)
    ensures i <= |es|
    ensures i < |es| ==> Matches(es[i], h)
    ensures forall j :: 0 <= j < i ==> !Matches(es[j], h)
  {
    if es == [] || Matches(es[0], h) then 0 else 1 + FirstMatch(es[1..], h)
  }

  /** The headers an entry takes when it is appended: every match, or only the oldest for USE_ONCE. */
  function Taken(e: Entry, hs: seq<Header>): seq<Header> {
    if hs == [] then []
    else if !Matches(e, hs[0]) then Taken(e, hs[1..])
    else [hs[0]] + if e.me.useOnce then [] else Taken(e, hs[1..])
  }

  function Left(e: Entry, hs: seq<Header>): seq<Header> {
    if hs == [] then []
    else if !Matches(e, hs[0]) then [hs[0]] + Left(e, hs[1..])
    else if e.me.useOnce then hs[1..] else Left(e, hs[1..])
  }

  function Without(es: seq<Entry>, id: nat): seq<Entry> {
    if es == [] then []
    else if es[0].id == id then Without(es[1..], id) else [es[0]] + Without(es[1..], id)
  }

  /** Where the entry of identity `id` stands, or the length of the list. */
  function IndexOf(es: seq<Entry>, id: nat): (i: nat)
    ensures i <= |es|
    ensures i < |es| ==> es[i].id == id
    ensures forall j :: 0 <= j < i ==> es[j].id != id
  {
    if es == [] || es[0].id == id then 0 else 1 + IndexOf(es[1..], id)
  }

  predicate Listed(es: seq<Entry>, id: nat) {
    IndexOf(es, id) < |es|
  }

  predicate Live(t: Table, id: nat) {
    Listed(t.priority, id) || Listed(t.overflow, id)
  }

  function EntryOf(t: Table, id: nat): Entry
    requires Live(t, id)
  {
    if Listed(t.priority, id) then t.priority[IndexOf(t.priority, id)] else t.overflow[IndexOf(t.overflow, id)]
  }

  function Put(es: seq<Entry>, e: Entry): seq<Entry> {
    if Listed(es, e.id) then es[IndexOf(es, e.id) := e] else es
  }

  function SetEntry(t: Table, e: Entry): Table {
    t.(priority := Put(t.priority, e), overflow := Put(t.overflow, e))
  }

  function Remove(t: Table, id: nat): Table {
    t.(priority := Without(t.priority, id), overflow := Without(t.overflow, id), unlinked := t.unlinked + [id])
  }

  function Pairings(e: Entry, hs: seq<Header>): seq<Pairing> {
    seq(|hs|, i requires 0 <= i < |hs| => Pairing(e, hs[i], AtAppend, 0, 0))
  }

  // ---------------------------------------------------------------- steps

  /** PtlMEAppend. A USE_ONCE entry that takes a header is never linked. */
  function Append(t: Table, d: Descriptor, list: ListKind): Table {
    var e := Entry(t.nextEntry, list, d, false, 0, false, false);
    var taken := if list.Priority? then Taken(e, t.headers) else [];
    var t1 := t.(nextEntry := t.nextEntry + 1, log := t.log + Pairings(e, taken),
                 headers := if list.Priority? then Left(e, t.headers) else t.headers);
    var linked := e.(used := taken != []);
    if taken != [] && d.useOnce then t1
    else if list.Priority? then t1.(priority := t.priority + [linked])
    else t1.(overflow := t.overflow + [linked])
  }

  function Pair(e: Entry, h: Header, how: How): Pairing {
    Pairing(e, h, how, StartOf(e, h), MLength(e, h.size))
  }

  /** A request arrives while the target is idle: match_entry and the first half of the handler. */
  function Arrive(t: Table, matching: bool, bits: bv64, size: Size, remoteOffset: Size): Table {
    if t.busy.Some? then t
    else
      var h := Header(t.nextMessage, matching, bits, size, remoteOffset);
      var t1 := t.(nextMessage := t.nextMessage + 1);
      var i, j := FirstMatch(t.priority, h), FirstMatch(t.overflow, h);
      if !t.enabled then t1
      else if i < |t.priority| then
        var e := t.priority[i];
        t1.(priority := t.priority[i := Accepted(e, h)], busy := Some(e.id), log := t.log + [Pair(e, h, Direct)])
      else if j < |t.overflow| then
        var e := t.overflow[j];
        t1.(overflow := t.overflow[j := Accepted(e, h)], busy := Some(e.id), log := t.log + [Pair(e, h, ToOverflow)],
            headers := t.headers + [h])
      else t1
  }

  /** The end of the handler: the entry is released, and unlinked if it is used up or was meant to go. */
  function Finish(t: Table): Table {
    if t.busy.None? || !Live(t, t.busy.value) then t
    else
      var e := EntryOf(t, t.busy.value).(inUse := false);
      var t1 := t.(busy := None);
      if AutoUnlinks(e) || e.needsUnlink then Remove(t1, e.id) else SetEntry(t1, e)
  }

  predicate Claimed(t: Table, e: Entry) {
    e.list.Overflow? && exists i :: 0 <= i < |t.headers| && Matches(e, t.headers[i])
  }

  /** PtlMEUnlink on a live entry: refused for an overflow entry that matches a pending header, deferred
      while a handler uses the entry. */
  function Unlink(t: Table, id: nat): Table {
    if !Live(t, id) || Claimed(t, EntryOf(t, id)) then t
    else if EntryOf(t, id).inUse then SetEntry(t, EntryOf(t, id).(needsUnlink := true))
    else Remove(t, id)
  }

  datatype Step =
    | AppendStep(me: Descriptor, list: ListKind)
    | ArriveStep(matching: bool, bits: bv64, size: Size, remoteOffset: Size)
    | FinishStep
    | UnlinkStep(id: nat)
    | EnableStep(enabled: bool)

  function Next(t: Table, s: Step): Table {
    match s
    case AppendStep(d, list) => Append(t, d, list)
    case ArriveStep(matching, bits, size, remoteOffset) => Arrive(t, matching, bits, size, remoteOffset)
    case FinishStep => Finish(t)
    case UnlinkStep(id) => Unlink(t, id)
    case EnableStep(enabled) => t.(enabled := enabled)
  }

  function Run(steps: seq<Step>): Table {
    if steps == [] then EMPTY else Next(Run(steps[..|steps| - 1]), steps[|steps| - 1])
  }
}
