/** Parking neither loses nor duplicates: a message that was handed to a transmit queue is in exactly
    one of that queue, the deque of messages waiting for credit, and the set of dispatched messages. */
module NicParking {
  import opened Wire
  import opened Queues
  import opened FlowControl
  import opened Nic
  import opened NicRefs

  ghost function Waiting(at: Places, p: Port, m: MsgId): nat {
    Count(at.tx, p, m) + Count(at.parked, p, m)
  }

  /** A message waits at most once, at home, and only before it is sent. */
  ghost predicate WaitsOnce(msgs: Msgs, at: Places, sent: set<MsgId>) {
    forall p, m {:trigger Waiting(at, p, m)} :: Waiting(at, p, m) > 0 ==>
      Waiting(at, p, m) == 1 && m in msgs && Home(msgs[m]) == p && m !in sent
  }

  /** Every message ever created either was sent or is alive and waits at home. */
  ghost predicate NoneLost(msgs: Msgs, next: nat, at: Places, sent: set<MsgId>) {
    forall m: MsgId {:trigger m in sent} ::
      if m in sent then m < next else m < next ==> m in msgs && Waiting(at, Home(msgs[m]), m) == 1
  }

  ghost predicate InFlightOnce(at: Places, sent: set<MsgId>) {
    forall m {:trigger at.net[m]} :: at.net[m] > 0 ==> at.net[m] == 1 && m in sent
  }

  ghost predicate Known(msgs: Msgs, next: nat) {
    forall m {:trigger m in msgs} :: m in msgs ==> m < next
  }

  ghost predicate Kept(msgs: Msgs, next: nat, at: Places, sent: set<MsgId>) {
    WaitsOnce(msgs, at, sent) && NoneLost(msgs, next, at, sent) && InFlightOnce(at, sent) && Known(msgs, next)
  }

  ghost predicate Parking(s: State) {
    Kept(s.msgs, s.next, s.at, s.sent)
  }

  // ---------------------------------------------------------------- elementary moves

  lemma WaitingKept(s: State, t: State)
    requires Parking(s) && SameLinks(s.msgs, t.msgs) && t.next == s.next && t.sent == s.sent
    requires forall p, m :: Waiting(t.at, p, m) == Waiting(s.at, p, m)
    requires forall m :: t.at.net[m] <= s.at.net[m]
    ensures Parking(t)
  {
  }

  lemma SpawnParks(s: State, p: Port, msg: Msg, q: Req)
    requires Parking(s) && p == Home(msg)
    ensures Parking(Spawn(s, p, msg, q))
  {
    hide Kept;
    BornParks(s.msgs, s.next, s.at, s.sent, p, msg.(refCount := 1), Spawn(s, p, msg, q).msgs);
  }

  /** Message `m` joins the transmit queue of port `p`. */
  ghost predicate Joins(at: Places, at': Places, p: Port, m: MsgId) {
    && at'.net == at.net
    && (forall p', k {:trigger Waiting(at', p', k)} ::
          Waiting(at', p', k) == Waiting(at, p', k) + (if p' == p && k == m then 1 else 0))
  }

  lemma PushJoins(at: Places, p: Port, m: MsgId)
    ensures Joins(at, at.(tx := Push(at.tx, p, m)), p, m)
  {
    PushCount(at.tx, p, m);
    hide Push;
  }

  lemma BornWaits(msgs: Msgs, at: Places, at': Places, sent: set<MsgId>, p: Port, m: MsgId, msg: Msg)
    requires WaitsOnce(msgs, at, sent) && Joins(at, at', p, m) && m !in msgs && m !in sent && p == Home(msg)
    ensures WaitsOnce(msgs[m := msg], at', sent)
  {
    hide Waiting, Home;
    forall p', k | Waiting(at', p', k) > 0
      ensures Waiting(at', p', k) == 1 && k in msgs[m := msg] && Home(msgs[m := msg][k]) == p' && k !in sent
    {
      assert k != m ==> Waiting(at, p', k) > 0;
    }
  }

  lemma BornNotLost(msgs: Msgs, next: nat, at: Places, at': Places, sent: set<MsgId>, p: Port, msg: Msg)
    requires WaitsOnce(msgs, at, sent) && NoneLost(msgs, next, at, sent) && Joins(at, at', p, next)
    requires next !in msgs && next !in sent && p == Home(msg)
    ensures NoneLost(msgs[next := msg], next + 1, at', sent)
  {
    hide Waiting, Home;
    assert Waiting(at, p, next) == 0;
  }

  lemma BornParks(msgs: Msgs, next: nat, at: Places, sent: set<MsgId>, p: Port, msg: Msg, msgs': Msgs)
    requires Kept(msgs, next, at, sent) && p == Home(msg) && msgs' == msgs[next := msg]
    ensures Kept(msgs', next + 1, at.(tx := Push(at.tx, p, next)), sent)
  {
    var at' := at.(tx := Push(at.tx, p, next));
    PushJoins(at, p, next);
    assert next !in msgs && next !in sent;
    hide Push, Joins, WaitsOnce, NoneLost;
    BornWaits(msgs, at, at', sent, p, next, msg);
    BornNotLost(msgs, next, at, at', sent, p, msg);
  }

  lemma ResumeParks(s: State, p: Port)
    requires Parking(s)
    ensures Parking(Resume(s, p))
  {
    var t := Resume(s, p);
    SpliceCount(s.at.tx, s.at.parked, p);
    WaitingKept(s, t);
  }

  lemma ReleaseParks(c: Config, s: State, n: Nid, ch: Channel, id: ChargeId)
    requires Parking(s)
    ensures Parking(ReleaseAt(c, s, n, ch, id))
  {
    hide Kept;
    ResumeParks(s, Port(n, ch.vn));
  }

  lemma HeaderParks(s: State, m: MsgId)
    requires Parking(s) && m in s.msgs
    ensures Parking(PushHeader(s, m)) && m in PushHeader(s, m).msgs
  {
    hide Kept;
    WaitingKept(s, PushHeader(s, m));
  }

  lemma ApplyParks(c: Config, s: State, m: MsgId, a: Reaction)
    requires Parking(s) && m in s.msgs && (a.Reaction? && a.sends.Some? ==> !IsRequest(a.sends.value.typ))
    ensures Parking(Apply(c, s, m, a))
  {
    hide Kept, ReleaseAt, Answer, PushHeader;
    if a.Reaction? {
      var s1 := if a.keeps then PushHeader(s, m) else s;
      if a.keeps { HeaderParks(s, m); }
      var s2 := s1;
      if a.gives.Some? {
        s2 := ReleaseAt(c, s1, a.gives.value.node, a.gives.value.channel, a.gives.value.id);
        ReleaseParks(c, s1, a.gives.value.node, a.gives.value.channel, a.gives.value.id);
      }
      if a.sends.Some? { AnswerParks(s2, m, a.req, a.sends.value); }
    }
  }

  lemma LinkedSame(s: State, m: MsgId, typ: MsgType)
    requires m in s.msgs
    ensures SameLinks(s.msgs, Linked(s, m, typ).msgs) && Linked(s, m, typ).sent == s.sent
  {
  }

  lemma AnswerParks(s: State, m: MsgId, q: Req, reply: Reply)
    requires Parking(s) && m in s.msgs && !IsRequest(reply.typ)
    ensures Parking(Answer(s, m, q, reply))
  {
    var msg, s1 := s.msgs[m], Linked(s, m, reply.typ);
    LinkedSame(s, m, reply.typ);
    hide Kept, Linked, Spawn, SameLinks;
    WaitingKept(s, s1);
    SpawnParks(s1, Port(msg.target, ResponseVn(msg.service)), ReplyTo(s.next, m, msg, reply), q.(token := s.next));
  }

  /** Only messages held nowhere are destroyed, so no waiting message is lost. */
  lemma ShrunkParks(s: State, t: State)
    requires Parking(s) && Shrunk(s.msgs, t.msgs, s.reqs, t.reqs, s.at) && SameRest(s, t)
    ensures Parking(t)
  {
    forall p, m | Waiting(s.at, p, m) > 0 ensures m in t.msgs && Home(t.msgs[m]) == p {
      assert Survives(s.msgs, t.msgs, s.at, m);
    }
  }

  lemma ParkParks(s: State, p: Port, m: MsgId, flows: map<Nid, Flow>)
    requires Parking(s) && Q(s.at.tx, p) != [] && m == Q(s.at.tx, p)[0]
    ensures Count(s.at.parked, p, m) == 0
    ensures Parking(Park(Popped(s, p).(flows := flows), p, m))
  {
    var t := Park(Popped(s, p).(flows := flows), p, m);
    HeadOnlyThere(s.msgs, s.at, s.sent, p);
    hide Kept, Push, Pop, Waiting;
    ParkMoves(s.at, p);
    WaitingKept(s, t);
  }

  lemma HeadOnlyThere(msgs: Msgs, at: Places, sent: set<MsgId>, p: Port)
    requires WaitsOnce(msgs, at, sent) && Q(at.tx, p) != []
    ensures Q(at.tx, p)[0] !in Q(at.parked, p) && Count(at.parked, p, Q(at.tx, p)[0]) == 0
  {
    PopCount(at.tx, p);
    CountIn(at.parked, p, Q(at.tx, p)[0]);
    assert Waiting(at, p, Q(at.tx, p)[0]) == 1;
  }

  /** From one queue of a port to the other. */
  lemma ParkMoves(at: Places, p: Port)
    requires Q(at.tx, p) != []
    ensures var at' := at.(tx := Pop(at.tx, p), parked := Push(at.parked, p, Q(at.tx, p)[0]));
      forall p', k :: Waiting(at', p', k) == Waiting(at, p', k)
  {
    PopCount(at.tx, p);
    PushCount(at.parked, p, Q(at.tx, p)[0]);
    hide Pop, Push;
  }

  /** Message `m` leaves the transmit queue of port `p` for the network. */
  ghost predicate Departs(at: Places, at': Places, p: Port, m: MsgId) {
    && at'.net == at.net + multiset{m} && Waiting(at, p, m) > 0
    && (forall p', k {:trigger Waiting(at', p', k)} ::
          Waiting(at', p', k) == Waiting(at, p', k) - (if p' == p && k == m then 1 else 0))
  }

  lemma PopDeparts(at: Places, at': Places, p: Port)
    requires Q(at.tx, p) != [] && at'.tx == Pop(at.tx, p) && at'.parked == at.parked
    requires at'.net == at.net + multiset{Q(at.tx, p)[0]}
    ensures Departs(at, at', p, Q(at.tx, p)[0])
  {
    PopCount(at.tx, p);
    hide Pop;
    assert Waiting(at, p, Q(at.tx, p)[0]) > 0;
  }

  lemma LaunchWaits(msgs: Msgs, msgs': Msgs, at: Places, at': Places, sent: set<MsgId>, p: Port, m: MsgId)
    requires WaitsOnce(msgs, at, sent) && SameLinks(msgs, msgs') && Departs(at, at', p, m)
    ensures WaitsOnce(msgs', at', sent + {m}) && m !in sent && m in msgs && Home(msgs[m]) == p
  {
    hide Waiting, Home;
    assert Waiting(at, p, m) == 1;
    forall p', k | Waiting(at', p', k) > 0
      ensures Waiting(at', p', k) == 1 && k in msgs' && Home(msgs'[k]) == p' && k !in sent + {m}
    {
      assert Waiting(at, p', k) > 0;
    }
  }

  lemma LaunchNotLost(msgs: Msgs, msgs': Msgs, next: nat, at: Places, at': Places, sent: set<MsgId>, p: Port, m: MsgId)
    requires NoneLost(msgs, next, at, sent) && SameLinks(msgs, msgs') && Departs(at, at', p, m) && m < next
    ensures NoneLost(msgs', next, at', sent + {m})
  {
    hide Waiting, Home;
  }

  lemma LaunchFlies(at: Places, at': Places, sent: set<MsgId>, m: MsgId)
    requires InFlightOnce(at, sent) && m !in sent && at'.net == at.net + multiset{m}
    ensures InFlightOnce(at', sent + {m})
  {
    assert at.net[m] == 0;
  }

  lemma LaunchParks(msgs: Msgs, msgs': Msgs, next: nat, at: Places, at': Places, sent: set<MsgId>, p: Port, m: MsgId)
    requires Kept(msgs, next, at, sent) && SameLinks(msgs, msgs')
    requires Q(at.tx, p) != [] && m == Q(at.tx, p)[0]
    requires at'.tx == Pop(at.tx, p) && at'.parked == at.parked && at'.net == at.net + multiset{m}
    ensures Kept(msgs', next, at', sent + {m})
  {
    PopDeparts(at, at', p);
    hide Pop, Departs, WaitsOnce, NoneLost, InFlightOnce, Home;
    LaunchWaits(msgs, msgs', at, at', sent, p, m);
    LaunchNotLost(msgs, msgs', next, at, at', sent, p, m);
    LaunchFlies(at, at', sent, m);
  }

  lemma DispatchParks(c: Config, s: State, n: Nid, m: MsgId, p: Port, u: State)
    requires Parking(s) && Q(s.at.tx, p) != [] && m == Q(s.at.tx, p)[0] && Live(s, m)
    requires u.msgs == s.msgs && u.at == Popped(s, p).at && u.sent == s.sent && u.next == s.next && u.reqs == s.reqs
    ensures Parking(Dispatch(c, u, n, m))
  {
    hide Kept;
    var t := Dispatch(c, u, n, m);
    LaunchParks(s.msgs, t.msgs, s.next, s.at, t.at, s.sent, p, m);
  }
}
