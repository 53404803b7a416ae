/** Reference counts are exact. `debt` is the multiset of references held by the handler that is
    running, and `owed` the destructors still to decrement each request; both are empty between steps. */
module NicRefs {
  import opened Wire
  import opened Queues
  import opened Nic

  type Msgs = map<MsgId, Msg>
  type Reqs = map<ReqId, Req>

  ghost function Answerers(msgs: Msgs, a: MsgId): set<MsgId> {
    set k | k in msgs && msgs[k].answers == Some(a)
  }

  ghost function MessagesOf(msgs: Msgs, r: ReqId): set<MsgId> {
    set k | k in msgs && msgs[k].req == r
  }

  /** The queue a message is transmitted from. */
  function Home(msg: Msg): Port {
    Port(msg.initiator, VnOf(msg))
  }

  /** How many places hold message `m`. */
  ghost function HeldBy(at: Places, m: MsgId, msg: Msg): nat {
    Count(at.tx, Home(msg), m) + Count(at.parked, Home(msg), m) + at.net[m] + Count(at.e2e, msg.initiator, m) + at.uh[m]
  }

  ghost predicate CountExact(msgs: Msgs, at: Places, debt: multiset<MsgId>, m: MsgId)
    requires m in msgs
  {
    msgs[m].refCount == HeldBy(at, m, msgs[m]) + |Answerers(msgs, m)| + debt[m] > 0
  }

  /** Links lead to strictly older messages of the same request. */
  ghost predicate LinkSound(msgs: Msgs, m: MsgId)
    requires m in msgs
  {
    msgs[m].answers.Some? ==>
      var a := msgs[m].answers.value;
      a < m && a in msgs && msgs[a].req == msgs[m].req
  }

  /** Every place holds live messages, queues hold their own, and nothing else. */
  ghost predicate Housed(msgs: Msgs, at: Places, debt: multiset<MsgId>) {
    && (forall p, m {:trigger Count(at.tx, p, m)} :: Count(at.tx, p, m) > 0 ==> m in msgs && Home(msgs[m]) == p)
    && (forall p, m {:trigger Count(at.parked, p, m)} :: Count(at.parked, p, m) > 0 ==> m in msgs && Home(msgs[m]) == p)
    && (forall n, m {:trigger Count(at.e2e, n, m)} :: Count(at.e2e, n, m) > 0 ==> m in msgs && msgs[m].initiator == n)
    && (forall m {:trigger at.net[m]} :: at.net[m] > 0 ==> m in msgs)
    && (forall m {:trigger at.uh[m]} :: at.uh[m] > 0 ==> m in msgs)
    && (forall m {:trigger debt[m]} :: debt[m] > 0 ==> m in msgs)
  }

  ghost predicate MessagesExact(msgs: Msgs, at: Places, debt: multiset<MsgId>) {
    && (forall m {:trigger CountExact(msgs, at, debt, m)} :: m in msgs ==> CountExact(msgs, at, debt, m))
    && (forall m {:trigger LinkSound(msgs, m)} :: m in msgs ==> LinkSound(msgs, m))
    && Housed(msgs, at, debt)
  }

  /** Every message belongs to a live request. */
  ghost predicate Owned(msgs: Msgs, reqs: Reqs, next: nat) {
    forall m {:trigger msgs[m]} :: m in msgs ==>
      m < next && msgs[m].req in reqs && msgs[m].service == reqs[msgs[m].req].command.service
  }

  ghost predicate RequestsExact(msgs: Msgs, reqs: Reqs, next: nat, freed: multiset<ReqId>, owed: multiset<ReqId>) {
    && (forall r {:trigger reqs[r]} :: r in reqs ==>
          r < next && freed[r] == 0 && reqs[r].msgRefs == |MessagesOf(msgs, r)| + owed[r] > 0)
    && (forall r {:trigger freed[r]} :: freed[r] > 0 ==> r < next && freed[r] == 1)
    && (forall r {:trigger owed[r]} :: owed[r] > 0 ==> r in reqs)
  }

  ghost predicate Exact(s: State, debt: multiset<MsgId>, owed: multiset<ReqId>) {
    && MessagesExact(s.msgs, s.at, debt)
    && Owned(s.msgs, s.reqs, s.next)
    && RequestsExact(s.msgs, s.reqs, s.next, s.freed, owed)
  }

  /** The reference-count invariant between two steps. */
  ghost predicate RefInv(s: State) {
    Exact(s, multiset{}, multiset{})
  }

  // ---------------------------------------------------------------- links between messages

  lemma LinksKept(msgs: Msgs, msgs': Msgs)
    requires msgs.Keys == msgs'.Keys
    requires forall k :: k in msgs ==> msgs'[k].answers == msgs[k].answers && msgs'[k].req == msgs[k].req
    ensures forall a: MsgId :: Answerers(msgs', a) == Answerers(msgs, a)
    ensures forall r: ReqId :: MessagesOf(msgs', r) == MessagesOf(msgs, r)
  {
  }

  lemma AnswererAdded(msgs: Msgs, m: MsgId, msg: Msg, msgs': Msgs, a: MsgId)
    requires m !in msgs && msgs' == msgs[m := msg]
    ensures |Answerers(msgs', a)| == |Answerers(msgs, a)| + (if msg.answers == Some(a) then 1 else 0)
  {
    if msg.answers == Some(a) {
      assert Answerers(msgs', a) == Answerers(msgs, a) + {m};
    } else {
      assert Answerers(msgs', a) == Answerers(msgs, a);
    }
  }

  lemma MessageAdded(msgs: Msgs, m: MsgId, msg: Msg, msgs': Msgs, r: ReqId)
    requires m !in msgs && msgs' == msgs[m := msg]
    ensures |MessagesOf(msgs', r)| == |MessagesOf(msgs, r)| + (if msg.req == r then 1 else 0)
  {
    if msg.req == r {
      assert MessagesOf(msgs', r) == MessagesOf(msgs, r) + {m};
    } else {
      assert MessagesOf(msgs', r) == MessagesOf(msgs, r);
    }
  }

  // ---------------------------------------------------------------- moving references around

  /** Same messages up to reference and retry counts. */
  ghost predicate SameLinks(msgs: Msgs, msgs': Msgs) {
    && msgs'.Keys == msgs.Keys
    && (forall k {:trigger msgs'[k]} :: k in msgs ==>
          && msgs'[k].req == msgs[k].req && msgs'[k].answers == msgs[k].answers
          && msgs'[k].initiator == msgs[k].initiator && msgs'[k].service == msgs[k].service
          && Home(msgs'[k]) == Home(msgs[k]))
  }

  /** Moving references between the places and the running handler keeps every count exact. */
  lemma Moved(msgs: Msgs, msgs': Msgs, at: Places, at': Places, debt: multiset<MsgId>, debt': multiset<MsgId>)
    requires MessagesExact(msgs, at, debt) && SameLinks(msgs, msgs') && Housed(msgs', at', debt')
    requires forall m :: m in msgs ==>
      msgs'[m].refCount > 0 &&
      msgs'[m].refCount - msgs[m].refCount ==
        HeldBy(at', m, msgs[m]) - HeldBy(at, m, msgs[m]) + debt'[m] - debt[m]
    ensures MessagesExact(msgs', at', debt')
  {
    LinksKept(msgs, msgs');
    forall m | m in msgs' ensures CountExact(msgs', at', debt', m) {
      assert CountExact(msgs, at, debt, m);
      assert Answerers(msgs', m) == Answerers(msgs, m);
      assert Home(msgs'[m]) == Home(msgs[m]);
    }
    forall m | m in msgs' ensures LinkSound(msgs', m) {
      assert LinkSound(msgs, m);
    }
  }

  lemma RequestsKept(s: State, s': State, owed: multiset<ReqId>)
    requires RequestsExact(s.msgs, s.reqs, s.next, s.freed, owed) && Owned(s.msgs, s.reqs, s.next)
    requires SameLinks(s.msgs, s'.msgs)
    requires s'.reqs == s.reqs && s'.next == s.next && s'.freed == s.freed
    ensures RequestsExact(s'.msgs, s'.reqs, s'.next, s'.freed, owed) && Owned(s'.msgs, s'.reqs, s'.next)
  {
    assert Owned(s'.msgs, s'.reqs, s'.next) by { hide RequestsExact; }
    hide Owned;
    LinksKept(s.msgs, s'.msgs);
  }

  /** The running handler takes a reference on `m`. */
  lemma ReferenceExact(msgs: Msgs, at: Places, m: MsgId, debt: multiset<MsgId>)
    requires MessagesExact(msgs, at, debt) && m in msgs
    ensures MessagesExact(Reference(msgs, m), at, debt + multiset{m})
    ensures SameLinks(msgs, Reference(msgs, m))
  {
    forall k | k in msgs ensures msgs[k].refCount > 0 { assert CountExact(msgs, at, debt, k); }
    Moved(msgs, Reference(msgs, m), at, at, debt, debt + multiset{m});
  }

  /** Only the places change: the per-message balance is all there is to prove. */
  lemma Relocated(msgs: Msgs, at: Places, at': Places, debt: multiset<MsgId>, debt': multiset<MsgId>)
    requires MessagesExact(msgs, at, debt) && Housed(msgs, at', debt')
    requires forall m :: m in msgs ==> HeldBy(at', m, msgs[m]) + debt'[m] == HeldBy(at, m, msgs[m]) + debt[m]
    ensures MessagesExact(msgs, at', debt')
  {
    forall k | k in msgs ensures msgs[k].refCount > 0 { assert CountExact(msgs, at, debt, k); }
    Moved(msgs, msgs, at, at', debt, debt');
  }

  lemma ToTx(msgs: Msgs, at: Places, m: MsgId, debt: multiset<MsgId>)
    requires m in msgs && MessagesExact(msgs, at, debt + multiset{m})
    ensures MessagesExact(msgs, at.(tx := Push(at.tx, Home(msgs[m]), m)), debt)
  {
    PushCount(at.tx, Home(msgs[m]), m);
    forall k ensures debt[k] <= (debt + multiset{m})[k] { }
    Relocated(msgs, at, at.(tx := Push(at.tx, Home(msgs[m]), m)), debt + multiset{m}, debt);
  }

  lemma ToParked(msgs: Msgs, at: Places, m: MsgId, debt: multiset<MsgId>)
    requires m in msgs && MessagesExact(msgs, at, debt + multiset{m})
    ensures MessagesExact(msgs, at.(parked := Push(at.parked, Home(msgs[m]), m)), debt)
  {
    PushCount(at.parked, Home(msgs[m]), m);
    forall k ensures debt[k] <= (debt + multiset{m})[k] { }
    Relocated(msgs, at, at.(parked := Push(at.parked, Home(msgs[m]), m)), debt + multiset{m}, debt);
  }

  lemma ToE2e(msgs: Msgs, at: Places, m: MsgId, debt: multiset<MsgId>)
    requires m in msgs && MessagesExact(msgs, at, debt + multiset{m})
    ensures MessagesExact(msgs, at.(e2e := Push(at.e2e, msgs[m].initiator, m)), debt)
  {
    PushCount(at.e2e, msgs[m].initiator, m);
    forall k ensures debt[k] <= (debt + multiset{m})[k] { }
    Relocated(msgs, at, at.(e2e := Push(at.e2e, msgs[m].initiator, m)), debt + multiset{m}, debt);
  }

  lemma ToNet(msgs: Msgs, at: Places, m: MsgId, debt: multiset<MsgId>)
    requires m in msgs && MessagesExact(msgs, at, debt + multiset{m})
    ensures MessagesExact(msgs, at.(net := at.net + multiset{m}), debt)
  {
    forall k ensures debt[k] <= (debt + multiset{m})[k] { }
    Relocated(msgs, at, at.(net := at.net + multiset{m}), debt + multiset{m}, debt);
  }

  lemma ToHeaders(msgs: Msgs, at: Places, m: MsgId, debt: multiset<MsgId>)
    requires m in msgs && MessagesExact(msgs, at, debt + multiset{m})
    ensures MessagesExact(msgs, at.(uh := at.uh + multiset{m}), debt)
  {
    forall k ensures debt[k] <= (debt + multiset{m})[k] { }
    Relocated(msgs, at, at.(uh := at.uh + multiset{m}), debt + multiset{m}, debt);
  }

  lemma FromTx(msgs: Msgs, at: Places, p: Port, debt: multiset<MsgId>)
    requires MessagesExact(msgs, at, debt) && Q(at.tx, p) != []
    ensures MessagesExact(msgs, at.(tx := Pop(at.tx, p)), debt + multiset{Q(at.tx, p)[0]})
    ensures Q(at.tx, p)[0] in msgs && Home(msgs[Q(at.tx, p)[0]]) == p
  {
    PopCount(at.tx, p);
    Relocated(msgs, at, at.(tx := Pop(at.tx, p)), debt, debt + multiset{Q(at.tx, p)[0]});
  }

  lemma FromE2e(msgs: Msgs, at: Places, n: Nid, debt: multiset<MsgId>)
    requires MessagesExact(msgs, at, debt) && Q(at.e2e, n) != []
    ensures MessagesExact(msgs, at.(e2e := Pop(at.e2e, n)), debt + multiset{Q(at.e2e, n)[0]})
    ensures Q(at.e2e, n)[0] in msgs && msgs[Q(at.e2e, n)[0]].initiator == n
  {
    PopCount(at.e2e, n);
    Relocated(msgs, at, at.(e2e := Pop(at.e2e, n)), debt, debt + multiset{Q(at.e2e, n)[0]});
  }

  lemma FromNet(msgs: Msgs, at: Places, m: MsgId, debt: multiset<MsgId>)
    requires MessagesExact(msgs, at, debt) && m in at.net
    ensures MessagesExact(msgs, at.(net := at.net - multiset{m}), debt + multiset{m})
    ensures m in msgs
  {
    assert at.net[m] > 0;
    Relocated(msgs, at, at.(net := at.net - multiset{m}), debt, debt + multiset{m});
  }

  lemma FromHeaders(msgs: Msgs, at: Places, m: MsgId, debt: multiset<MsgId>)
    requires MessagesExact(msgs, at, debt) && m in at.uh
    ensures MessagesExact(msgs, at.(uh := at.uh - multiset{m}), debt + multiset{m})
    ensures m in msgs
  {
    assert at.uh[m] > 0;
    Relocated(msgs, at, at.(uh := at.uh - multiset{m}), debt, debt + multiset{m});
  }

  lemma Resumed(msgs: Msgs, at: Places, p: Port, debt: multiset<MsgId>)
    requires MessagesExact(msgs, at, debt)
    ensures MessagesExact(msgs, at.(tx := Splice(at.tx, at.parked, p), parked := Clear(at.parked, p)), debt)
  {
    SpliceCount(at.tx, at.parked, p);
    Relocated(msgs, at, at.(tx := Splice(at.tx, at.parked, p), parked := Clear(at.parked, p)), debt, debt);
  }

  // ---------------------------------------------------------------- creation

  /** No place holds an identifier that was never given out. */
  lemma NothingHeld(msgs: Msgs, at: Places, debt: multiset<MsgId>, m: MsgId, msg: Msg)
    requires MessagesExact(msgs, at, debt) && m !in msgs
    ensures HeldBy(at, m, msg) == 0 && debt[m] == 0 && Answerers(msgs, m) == {}
  {
    assert Housed(msgs, at, debt);
    assert Count(at.tx, Home(msg), m) == 0;
    assert Count(at.parked, Home(msg), m) == 0;
    assert Count(at.e2e, msg.initiator, m) == 0;
    assert at.net[m] == 0 && at.uh[m] == 0;
    forall k | k in msgs ensures msgs[k].answers != Some(m) { assert LinkSound(msgs, k); }
  }

  lemma StillHoused(msgs: Msgs, msgs': Msgs, at: Places, debt: multiset<MsgId>, debt': multiset<MsgId>)
    requires Housed(msgs, at, debt)
    requires forall k :: k in msgs ==> k in msgs' && msgs'[k] == msgs[k]
    requires forall k :: debt'[k] > 0 ==> k in msgs'
    ensures Housed(msgs', at, debt')
  {
  }

  lemma AddedCount(msgs: Msgs, at: Places, m: MsgId, msg: Msg, msgs': Msgs, debt: multiset<MsgId>,
                   before: multiset<MsgId>, k: MsgId)
    requires before == if msg.answers.Some? then debt + multiset{msg.answers.value} else debt
    requires m !in msgs && msg.refCount == 1 && msgs' == msgs[m := msg] && k in msgs' && msg.answers != Some(m)
    requires HeldBy(at, m, msg) == 0 && before[m] == 0 && Answerers(msgs, m) == {}
    requires k != m ==> CountExact(msgs, at, before, k)
    ensures CountExact(msgs', at, debt + multiset{m}, k)
  {
    AnswererAdded(msgs, m, msg, msgs', k);
    hide HeldBy, Answerers;
  }

  lemma AddedLinks(msgs: Msgs, m: MsgId, msg: Msg, msgs': Msgs, k: MsgId)
    requires m !in msgs && msgs' == msgs[m := msg] && k in msgs' && (k != m ==> LinkSound(msgs, k))
    requires msg.answers.Some? ==>
      msg.answers.value in msgs && msg.answers.value < m && msgs[msg.answers.value].req == msg.req
    ensures LinkSound(msgs', k)
  {
  }

  /** A new message uses up the reference its answer link was prepared with. */
  lemma Added(msgs: Msgs, at: Places, m: MsgId, msg: Msg, msgs': Msgs, debt: multiset<MsgId>, before: multiset<MsgId>)
    requires before == if msg.answers.Some? then debt + multiset{msg.answers.value} else debt
    requires MessagesExact(msgs, at, before)
    requires m !in msgs && msg.refCount == 1 && msgs' == msgs[m := msg]
    requires msg.answers.Some? ==>
      msg.answers.value in msgs && msg.answers.value < m && msgs[msg.answers.value].req == msg.req
    ensures MessagesExact(msgs', at, debt + multiset{m})
  {
    hide Housed, CountExact, LinkSound, HeldBy, Answerers;
    NothingHeld(msgs, at, before, m, msg);
    forall k | k in msgs' ensures CountExact(msgs', at, debt + multiset{m}, k) {
      AddedCount(msgs, at, m, msg, msgs', debt, before, k);
    }
    forall k | k in msgs' ensures LinkSound(msgs', k) {
      AddedLinks(msgs, m, msg, msgs', k);
    }
    AddedHoused(msgs, at, m, msg, msgs', debt, before);
  }

  lemma AddedHoused(msgs: Msgs, at: Places, m: MsgId, msg: Msg, msgs': Msgs, debt: multiset<MsgId>,
                    before: multiset<MsgId>)
    requires before == if msg.answers.Some? then debt + multiset{msg.answers.value} else debt
    requires Housed(msgs, at, before) && m !in msgs && msgs' == msgs[m := msg]
    ensures Housed(msgs', at, debt + multiset{m})
  {
    forall k | (debt + multiset{m})[k] > 0 ensures k in msgs' {
      if k != m { assert before[k] >= debt[k] > 0; }
    }
    hide Housed;
    StillHoused(msgs, msgs', at, before, debt + multiset{m});
  }

  lemma RequestsAdded(s: State, msg: Msg, q: Req, msgs': Msgs, owed: multiset<ReqId>)
    requires RequestsExact(s.msgs, s.reqs, s.next, s.freed, owed)
    requires s.next !in s.msgs && msgs' == s.msgs[s.next := msg]
    requires if msg.req in s.reqs then q.msgRefs == s.reqs[msg.req].msgRefs
             else msg.req == s.next && q.msgRefs == 0 && MessagesOf(s.msgs, msg.req) == {}
    ensures RequestsExact(msgs', s.reqs[msg.req := q.(msgRefs := q.msgRefs + 1)], s.next + 1, s.freed, owed)
  {
    forall r: ReqId ensures |MessagesOf(msgs', r)| == |MessagesOf(s.msgs, r)| + (if msg.req == r then 1 else 0) {
      MessageAdded(s.msgs, s.next, msg, msgs', r);
    }
  }

  /** References the answer link of a new message needs beforehand. */
  ghost function Prepared(msg: Msg, debt: multiset<MsgId>): multiset<MsgId> {
    if msg.answers.Some? then debt + multiset{msg.answers.value} else debt
  }

  lemma SpawnMessages(msgs: Msgs, at: Places, m: MsgId, msg: Msg, msgs': Msgs, p: Port, debt: multiset<MsgId>)
    requires MessagesExact(msgs, at, Prepared(msg, debt))
    requires m !in msgs && msg.refCount == 1 && msgs' == msgs[m := msg] && p == Home(msg)
    requires msg.answers.Some? ==>
      msg.answers.value in msgs && msg.answers.value < m && msgs[msg.answers.value].req == msg.req
    ensures MessagesExact(msgs', at.(tx := Push(at.tx, p, m)), debt)
  {
    Added(msgs, at, m, msg, msgs', debt, Prepared(msg, debt));
    ToTx(msgs', at, m, debt);
  }

  lemma SpawnExact(s: State, p: Port, msg: Msg, q: Req, debt: multiset<MsgId>, owed: multiset<ReqId>)
    requires Exact(s, Prepared(msg, debt), owed)
    requires msg.answers.Some? ==> msg.answers.value in s.msgs && s.msgs[msg.answers.value].req == msg.req
    requires if msg.req in s.reqs then q.command == s.reqs[msg.req].command && q.msgRefs == s.reqs[msg.req].msgRefs
             else msg.req == s.next && q.msgRefs == 0
    requires msg.service == q.command.service && p == Home(msg)
    ensures Exact(Spawn(s, p, msg, q), debt, owed) && Spawn(s, p, msg, q).fault == s.fault
  {
    hide MessagesExact, RequestsExact;
    var born := msg.(refCount := 1);
    var msgs' := s.msgs[s.next := born];
    assert s.next !in s.msgs;
    if msg.answers.Some? { assert s.msgs[msg.answers.value].req == msg.req; }
    if msg.req !in s.reqs { assert MessagesOf(s.msgs, msg.req) == {}; }
    SpawnMessages(s.msgs, s.at, s.next, born, msgs', p, debt);
    RequestsAdded(s, born, q, msgs', owed);
  }

  // ---------------------------------------------------------------- destruction

  /** A message whose last reference is given back is in no place and answered by nobody. */
  lemma LastReference(msgs: Msgs, at: Places, m: MsgId, debt: multiset<MsgId>)
    requires MessagesExact(msgs, at, debt + multiset{m})
    requires m in msgs && msgs[m].refCount == 1
    ensures HeldBy(at, m, msgs[m]) == 0 && debt[m] == 0
    ensures forall k :: k in msgs ==> msgs[k].answers != Some(m)
  {
    assert CountExact(msgs, at, debt + multiset{m}, m);
    assert Answerers(msgs, m) == {};
    forall k | k in msgs ensures msgs[k].answers != Some(m) {
      assert k !in Answerers(msgs, m);
    }
  }

  lemma RemovedHoused(msgs: Msgs, at: Places, m: MsgId, msgs': Msgs, debt: multiset<MsgId>)
    requires Housed(msgs, at, debt + multiset{m})
    requires m in msgs && msgs' == msgs - {m} && HeldBy(at, m, msgs[m]) == 0 && debt[m] == 0
    requires LinkSound(msgs, m)
    ensures Housed(msgs', at, Prepared(msgs[m], debt))
  {
    forall k | Prepared(msgs[m], debt)[k] > 0 ensures k in msgs' {
      assert (debt + multiset{m})[k] >= debt[k];
    }
  }

  /** The destroyed message gives up the reference of its answer link. */
  lemma RemovedCount(msgs: Msgs, at: Places, m: MsgId, msgs': Msgs, debt: multiset<MsgId>, k: MsgId)
    requires m in msgs && msgs' == msgs - {m} && k in msgs' && CountExact(msgs, at, debt + multiset{m}, k)
    ensures CountExact(msgs', at, Prepared(msgs[m], debt), k)
  {
    AnswererAdded(msgs', m, msgs[m], msgs, k);
    hide HeldBy, Answerers;
  }

  lemma Removed(msgs: Msgs, at: Places, m: MsgId, msgs': Msgs, debt: multiset<MsgId>)
    requires MessagesExact(msgs, at, debt + multiset{m})
    requires m in msgs && msgs[m].refCount == 1 && msgs' == msgs - {m}
    ensures MessagesExact(msgs', at, Prepared(msgs[m], debt))
  {
    LastReference(msgs, at, m, debt);
    hide Housed, CountExact, Prepared, LinkSound, HeldBy;
    assert LinkSound(msgs, m);
    RemovedHoused(msgs, at, m, msgs', debt);
    forall k | k in msgs' ensures CountExact(msgs', at, Prepared(msgs[m], debt), k) {
      assert CountExact(msgs, at, debt + multiset{m}, k);
      RemovedCount(msgs, at, m, msgs', debt, k);
    }
    forall k | k in msgs' ensures LinkSound(msgs', k) {
      assert LinkSound(msgs, k);
      RemovedLink(msgs, m, msgs', k);
    }
  }

  lemma RemovedLink(msgs: Msgs, m: MsgId, msgs': Msgs, k: MsgId)
    requires msgs' == msgs - {m} && k in msgs' && LinkSound(msgs, k) && msgs[k].answers != Some(m)
    ensures LinkSound(msgs', k)
  {
  }

  lemma RequestsOwed(s: State, m: MsgId, msgs': Msgs, owed: multiset<ReqId>)
    requires RequestsExact(s.msgs, s.reqs, s.next, s.freed, owed) && Owned(s.msgs, s.reqs, s.next)
    requires m in s.msgs && msgs' == s.msgs - {m}
    ensures RequestsExact(msgs', s.reqs, s.next, s.freed, owed + multiset{s.msgs[m].req})
  {
    forall r: ReqId
      ensures |MessagesOf(s.msgs, r)| == |MessagesOf(msgs', r)| + (if s.msgs[m].req == r then 1 else 0)
    {
      MessageAdded(msgs', m, s.msgs[m], s.msgs, r);
    }
  }

  lemma OwnedStill(s: State, m: MsgId, msgs': Msgs)
    requires Owned(s.msgs, s.reqs, s.next) && m in s.msgs && msgs' == s.msgs - {m}
    ensures Owned(msgs', s.reqs, s.next)
  {
  }

  lemma OwnersStay(s: State, r: ReqId)
    requires Owned(s.msgs, s.reqs, s.next) && r in s.reqs
    requires s.reqs[r].msgRefs == 1 ==> MessagesOf(s.msgs, r) == {}
    ensures Owned(s.msgs, DropRequest(s, r).reqs, s.next)
  {
    forall m | m in s.msgs ensures s.msgs[m].req == r ==> s.reqs[r].msgRefs != 1 {
      if s.msgs[m].req == r { assert m in MessagesOf(s.msgs, r); }
    }
  }

  lemma RequestsPaid(s: State, r: ReqId, owed: multiset<ReqId>)
    requires RequestsExact(s.msgs, s.reqs, s.next, s.freed, owed + multiset{r})
    ensures r in s.reqs && (s.reqs[r].msgRefs == 1 ==> MessagesOf(s.msgs, r) == {})
    ensures RequestsExact(s.msgs, DropRequest(s, r).reqs, s.next, DropRequest(s, r).freed, owed)
  {
    DropParts(s, r);
    hide DropRequest, RequestsExact;
    Paid(s.msgs, s.reqs, s.next, s.freed, owed, r, DropRequest(s, r).reqs, DropRequest(s, r).freed);
  }

  lemma DropParts(s: State, r: ReqId)
    ensures var t := DropRequest(s, r);
      r in s.reqs ==>
        if s.reqs[r].msgRefs == 1 then t.reqs == s.reqs - {r} && t.freed == s.freed + multiset{r}
        else t.freed == s.freed && t.reqs == s.reqs[r := s.reqs[r].(msgRefs := s.reqs[r].msgRefs - 1)]
  {
  }

  lemma Paid(msgs: Msgs, reqs: Reqs, next: nat, freed: multiset<ReqId>, owed: multiset<ReqId>, r: ReqId, reqs': Reqs,
             freed': multiset<ReqId>)
    requires RequestsExact(msgs, reqs, next, freed, owed + multiset{r})
    requires r in reqs ==>
      if reqs[r].msgRefs == 1 then reqs' == reqs - {r} && freed' == freed + multiset{r}
      else freed' == freed && reqs' == reqs[r := reqs[r].(msgRefs := reqs[r].msgRefs - 1)]
    ensures r in reqs && (reqs[r].msgRefs == 1 ==> MessagesOf(msgs, r) == {})
    ensures RequestsExact(msgs, reqs', next, freed', owed)
  {
    assert (owed + multiset{r})[r] == owed[r] + 1;
    forall k: ReqId | k != r ensures (owed + multiset{r})[k] == owed[k] { }
    assert reqs[r].msgRefs == |MessagesOf(msgs, r)| + owed[r] + 1;
    hide MessagesOf;
  }

  lemma DropRequestExact(s: State, r: ReqId, debt: multiset<MsgId>, owed: multiset<ReqId>)
    requires Exact(s, debt, owed + multiset{r})
    ensures Exact(DropRequest(s, r), debt, owed)
    ensures DropRequest(s, r).fault == s.fault
  {
    hide MessagesExact;
    RequestsPaid(s, r, owed);
    OwnersStay(s, r);
  }

  lemma InDebt(msgs: Msgs, at: Places, m: MsgId, debt: multiset<MsgId>)
    requires MessagesExact(msgs, at, debt + multiset{m})
    ensures m in msgs && CountExact(msgs, at, debt + multiset{m}, m) && LinkSound(msgs, m)
  {
    assert (debt + multiset{m})[m] > 0;
  }

  lemma Given(msgs: Msgs, at: Places, m: MsgId, msgs': Msgs, debt: multiset<MsgId>)
    requires MessagesExact(msgs, at, debt + multiset{m})
    requires m in msgs && msgs[m].refCount > 1
    requires msgs' == msgs[m := msgs[m].(refCount := msgs[m].refCount - 1)]
    ensures MessagesExact(msgs', at, debt) && SameLinks(msgs, msgs')
  {
    forall k | k in msgs ensures msgs[k].refCount > 0 {
      assert CountExact(msgs, at, debt + multiset{m}, k);
    }
    forall k ensures debt[k] <= (debt + multiset{m})[k] { }
    Moved(msgs, msgs', at, at, debt + multiset{m}, debt);
  }

  /** Giving back a reference, with every destructor it triggers, keeps counts exact and touches no
      freed object; the recursion follows strictly older messages. */
  lemma {:induction false} UnrefExact(s: State, m: MsgId, debt: multiset<MsgId>, owed: multiset<ReqId>)
    requires Exact(s, debt + multiset{m}, owed)
    ensures Exact(Unref(s, m), debt, owed)
    ensures Unref(s, m).fault == s.fault
    decreases m
  {
    hide MessagesExact, RequestsExact, Owned;
    InDebt(s.msgs, s.at, m, debt);
    var msg := s.msgs[m];
    if msg.refCount != 1 {
      var t := Unref(s, m);
      Given(s.msgs, s.at, m, t.msgs, debt);
      RequestsKept(s, t, owed);
    } else {
      var s1 := s.(msgs := s.msgs - {m});
      Removed(s.msgs, s.at, m, s1.msgs, debt);
      RequestsOwed(s, m, s1.msgs, owed);
      OwnedStill(s, m, s1.msgs);
      if msg.answers.Some? {
        UnrefExact(s1, msg.answers.value, debt, owed + multiset{msg.req});
        DropRequestExact(Unref(s1, msg.answers.value), msg.req, debt, owed);
      } else {
        DropRequestExact(s1, msg.req, debt, owed);
      }
    }
  }

  // ---------------------------------------------------------------- what giving back a reference leaves alone

  ghost predicate SameButRefs(q: Req, q': Req) {
    && q'.command == q.command && q'.phase == q.phase && q'.sendIssued == q.sendIssued
    && q'.getIssued == q.getIssued && q'.matched == q.matched && q'.initiatorLog == q.initiatorLog
    && q'.targetLog == q.targetLog && q'.header == q.header && q'.token == q.token
  }

  ghost predicate SameButCount(a: Msg, b: Msg) {
    && b.initiator == a.initiator && b.target == a.target && b.typ == a.typ && b.service == a.service
    && b.retry == a.retry && b.req == a.req && b.fail == a.fail && b.answers == a.answers && b.size == a.size
    && b.origin == a.origin
  }

  ghost predicate Survives(msgs: Msgs, msgs': Msgs, at: Places, m: MsgId)
    requires m in msgs
  {
    if m in msgs' then SameButCount(msgs[m], msgs'[m]) else HeldBy(at, m, msgs[m]) == 0
  }

  /** Only messages held nowhere and requests without messages disappear; the rest keeps its contents. */
  ghost predicate Shrunk(msgs: Msgs, msgs': Msgs, reqs: Reqs, reqs': Reqs, at: Places) {
    && msgs'.Keys <= msgs.Keys && reqs'.Keys <= reqs.Keys
    && (forall m {:trigger Survives(msgs, msgs', at, m)} :: m in msgs ==> Survives(msgs, msgs', at, m))
    && (forall r {:trigger reqs'[r]} :: r in reqs' ==> SameButRefs(reqs[r], reqs'[r]))
  }

  /** Everything but messages and requests. */
  predicate SameRest(s: State, t: State) {
    && t.at == s.at && t.flows == s.flows && t.cq == s.cq && t.open == s.open && t.sent == s.sent
    && t.resent == s.resent && t.next == s.next && t.fault == s.fault
  }

  lemma DroppedSame(s: State, r: ReqId, k: ReqId)
    requires r in s.reqs && k in DropRequest(s, r).reqs
    ensures k in s.reqs && SameButRefs(s.reqs[k], DropRequest(s, r).reqs[k])
  {
  }

  lemma RequestShrinks(s: State, r: ReqId)
    requires r in s.reqs
    ensures Shrunk(s.msgs, s.msgs, s.reqs, DropRequest(s, r).reqs, s.at) && SameRest(s, DropRequest(s, r))
    ensures DropRequest(s, r).msgs == s.msgs
  {
    hide SameButRefs;
    DropRest(s, r);
    forall m | m in s.msgs ensures Survives(s.msgs, s.msgs, s.at, m) { }
    hide DropRequest, Survives, SameRest;
    forall k | k in DropRequest(s, r).reqs
      ensures k in s.reqs && SameButRefs(s.reqs[k], DropRequest(s, r).reqs[k])
    {
      DroppedSame(s, r, k);
    }
  }

  lemma DropRest(s: State, r: ReqId)
    requires r in s.reqs
    ensures SameRest(s, DropRequest(s, r)) && DropRequest(s, r).msgs == s.msgs
    ensures DropRequest(s, r).reqs.Keys <= s.reqs.Keys
  {
  }

  lemma MessageShrinks(msgs: Msgs, m: MsgId, reqs: Reqs, at: Places)
    requires m in msgs && HeldBy(at, m, msgs[m]) == 0
    ensures Shrunk(msgs, msgs - {m}, reqs, reqs, at)
  {
  }

  lemma ShrunkTwice(msgs: Msgs, msgs': Msgs, msgs'': Msgs, reqs: Reqs, reqs': Reqs, reqs'': Reqs, at: Places)
    requires Shrunk(msgs, msgs', reqs, reqs', at) && Shrunk(msgs', msgs'', reqs', reqs'', at)
    ensures Shrunk(msgs, msgs'', reqs, reqs'', at)
  {
    forall m | m in msgs ensures Survives(msgs, msgs'', at, m) {
      assert Survives(msgs, msgs', at, m);
      if m in msgs' { assert Survives(msgs', msgs'', at, m); }
    }
  }

  lemma AnswerOlder(msgs: Msgs, m: MsgId)
    requires m in msgs && LinkSound(msgs, m)
    ensures msgs[m].answers.Some? ==> msgs[m].answers.value < m
  {
  }

  lemma {:induction false} UnrefShrinks(s: State, m: MsgId, debt: multiset<MsgId>, owed: multiset<ReqId>)
    requires Exact(s, debt + multiset{m}, owed)
    ensures var t := Unref(s, m); Shrunk(s.msgs, t.msgs, s.reqs, t.reqs, s.at) && SameRest(s, t)
    decreases m
  {
    hide MessagesExact, RequestsExact, Owned, Shrunk, DropRequest, HeldBy, LinkSound;
    InDebt(s.msgs, s.at, m, debt);
    AnswerOlder(s.msgs, m);
    var msg, t := s.msgs[m], Unref(s, m);
    if msg.refCount != 1 {
      CountShrinks(s.msgs, m, t.msgs, s.reqs, s.at);
    } else {
      var s1 := s.(msgs := s.msgs - {m});
      LastReference(s.msgs, s.at, m, debt);
      MessageShrinks(s.msgs, m, s.reqs, s.at);
      Removed(s.msgs, s.at, m, s1.msgs, debt);
      RequestsOwed(s, m, s1.msgs, owed);
      OwnedStill(s, m, s1.msgs);
      var s2 := s1;
      if msg.answers.Some? {
        s2 := Unref(s1, msg.answers.value);
        UnrefShrinks(s1, msg.answers.value, debt, owed + multiset{msg.req});
        UnrefExact(s1, msg.answers.value, debt, owed + multiset{msg.req});
        ShrunkTwice(s.msgs, s1.msgs, s2.msgs, s.reqs, s1.reqs, s2.reqs, s.at);
      }
      RequestsPaid(s2, msg.req, owed);
      RequestShrinks(s2, msg.req);
      assert t == DropRequest(s2, msg.req);
      ShrunkTwice(s.msgs, s2.msgs, t.msgs, s.reqs, s2.reqs, t.reqs, s.at);
    }
  }

  lemma CountShrinks(msgs: Msgs, m: MsgId, msgs': Msgs, reqs: Reqs, at: Places)
    requires m in msgs && msgs' == msgs[m := msgs[m].(refCount := msgs[m].refCount - 1)]
    ensures Shrunk(msgs, msgs', reqs, reqs, at)
  {
  }

  /** A deleted request leaves its last record behind. */
  ghost predicate Buried(reqs: Reqs, reqs': Reqs, ended: Reqs, ended': Reqs) {
    && reqs'.Keys <= reqs.Keys
    && (forall r {:trigger reqs'[r]} :: r in reqs' ==> SameButRefs(reqs[r], reqs'[r]))
    && (forall r {:trigger r in ended'} :: r in ended' <==> r in ended || (r in reqs && r !in reqs'))
    && (forall r {:trigger ended'[r]} :: r in ended' ==>
          if r in reqs && r !in reqs' then SameButRefs(reqs[r], ended'[r]) else ended'[r] == ended[r])
  }

  lemma BuriedTwice(reqs: Reqs, reqs': Reqs, reqs'': Reqs, ended: Reqs, ended': Reqs, ended'': Reqs)
    requires Buried(reqs, reqs', ended, ended') && Buried(reqs', reqs'', ended', ended'')
    ensures Buried(reqs, reqs'', ended, ended'')
  {
  }

  lemma DropBuries(s: State, r: ReqId)
    ensures var t := DropRequest(s, r); Buried(s.reqs, t.reqs, s.ended, t.ended)
  {
    if r in s.reqs {
      var t := DropRequest(s, r);
      assert SameButRefs(s.reqs[r], s.reqs[r]);
      forall k | k in t.reqs ensures k in s.reqs && SameButRefs(s.reqs[k], t.reqs[k]) { DroppedSame(s, r, k); }
      Dropped(s, r);
      hide SameButRefs, DropRequest;
    } else {
      NothingBuried(s.reqs, s.ended);
    }
  }

  /** Either the request loses one reference, or it moves to the deleted ones. */
  lemma Dropped(s: State, r: ReqId)
    requires r in s.reqs
    ensures var t := DropRequest(s, r);
      || (t.reqs.Keys == s.reqs.Keys && t.ended == s.ended)
      || (t.reqs.Keys == s.reqs.Keys - {r} && t.ended == s.ended[r := s.reqs[r]])
  {
  }

  lemma {:induction false} UnrefBuries(s: State, m: MsgId)
    ensures var t := Unref(s, m); Buried(s.reqs, t.reqs, s.ended, t.ended)
    decreases m
  {
    hide Buried, DropRequest;
    var t := Unref(s, m);
    NothingBuried(s.reqs, s.ended);
    if m in s.msgs && s.msgs[m].refCount == 1 {
      var msg := s.msgs[m];
      var s1 := s.(msgs := s.msgs - {m});
      if msg.answers.None? {
        DropBuries(s1, msg.req);
      } else if msg.answers.value < m {
        var s2 := Unref(s1, msg.answers.value);
        UnrefBuries(s1, msg.answers.value);
        DropBuries(s2, msg.req);
        BuriedTwice(s.reqs, s2.reqs, t.reqs, s.ended, s2.ended, t.ended);
      }
    }
  }

  lemma NothingBuried(reqs: Reqs, ended: Reqs)
    ensures Buried(reqs, reqs, ended, ended)
  {
  }
}
