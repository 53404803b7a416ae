/** What the initiator may still read of a message it has handed to the network. The program sleeps after that
    and then reads the message and its request, while the message may already have been handled. */
module NicLaunch {
  import opened Wire
  import opened Queues
  import opened FlowControl
  import opened Nic
  import opened NicRefs
  import opened NicParking
  import opened NicRefRuns

  /** Something still refers to a message that has left: the network, an unexpected header, the E2E actor of its
      initiator, or an ACK that answers it. */
  ghost predicate Referred(s: State, m: MsgId) {
    || s.at.net[m] > 0 || s.at.uh[m] > 0 || (exists n :: Count(s.at.e2e, n, m) > 0)
    || (exists k :: k in s.msgs && s.msgs[k].answers == Some(m))
  }

  /** In every run, a message that has left can still be read, with its request, exactly while something
      refers to it. */
  lemma ReadableExactly(c: Config, steps: seq<Step>, m: MsgId)
    requires Run(c, steps).fault.NoFault? && m in Run(c, steps).sent
    ensures Live(Run(c, steps), m) <==> Referred(Run(c, steps), m)
  {
    var s := Run(c, steps);
    RunSound(c, steps);
    hide Run;
    if m in s.msgs {
      NoMoreWaiting(s, m);
      SomeReference(s, m);
      assert Live(s, m) by { LiveOwned(s, m); }
    }
    if Referred(s, m) { ReferredLives(s, m); }
  }

  lemma NoMoreWaiting(s: State, m: MsgId)
    requires Parking(s) && m in s.sent && m in s.msgs
    ensures Count(s.at.tx, Home(s.msgs[m]), m) == 0 && Count(s.at.parked, Home(s.msgs[m]), m) == 0
  {
    var p := Home(s.msgs[m]);
    assert Waiting(s.at, p, m) == 0;
  }

  lemma SomeReference(s: State, m: MsgId)
    requires RefInv(s) && m in s.msgs
    requires Count(s.at.tx, Home(s.msgs[m]), m) == 0 && Count(s.at.parked, Home(s.msgs[m]), m) == 0
    ensures Referred(s, m)
  {
    assert CountExact(s.msgs, s.at, multiset{}, m);
    if Answerers(s.msgs, m) != {} {
      var k :| k in Answerers(s.msgs, m);
      assert k in s.msgs && s.msgs[k].answers == Some(m);
    } else {
      assert s.at.net[m] > 0 || s.at.uh[m] > 0 || Count(s.at.e2e, s.msgs[m].initiator, m) > 0;
    }
    hide Housed, RequestsExact;
  }

  lemma ReferredLives(s: State, m: MsgId)
    requires RefInv(s) && Referred(s, m)
    ensures Live(s, m)
  {
    hide CountExact, RequestsExact;
    if k :| k in s.msgs && s.msgs[k].answers == Some(m) { assert LinkSound(s.msgs, k); }
    LiveOwned(s, m);
  }

  // ---------------------------------------------------------------- what the E2E actor watches

  /** A step other than a timeout of node `n` leaves what the E2E actor of `n` watches in place; with E2E off
      nothing is added. */
  ghost predicate KeepsWatch(c: Config, s: State, t: State, n: Nid) {
    && (forall m {:trigger Count(t.at.e2e, n, m)} :: Count(s.at.e2e, n, m) <= Count(t.at.e2e, n, m))
    && (c.e2eOff ==> forall m {:trigger Count(t.at.e2e, n, m)} :: Count(t.at.e2e, n, m) == Count(s.at.e2e, n, m))
  }

  lemma ApplyWatch(c: Config, s: State, m: MsgId, a: Reaction)
    requires m in s.msgs
    ensures Apply(c, s, m, a).at.e2e == s.at.e2e
  {
    hide ReleaseAt, Answer, PushHeader;
  }

  lemma DispatchWatch(c: Config, s: State, k: Nid, m: MsgId, n: Nid)
    requires Live(s, m)
    ensures KeepsWatch(c, s, Dispatch(c, s, k, m), n)
    ensures Watched(c, s.msgs[m]) ==> Count(Dispatch(c, s, k, m).at.e2e, k, m) > 0
  {
    PushCount(s.at.e2e, k, m);
  }

  lemma TransmitWatch(c: Config, s: State, p: Port, n: Nid)
    ensures KeepsWatch(c, s, Transmit(c, s, p), n)
  {
    hide Dispatch, CheckFlowctrl, ChargedChannel, Popped, ChargeFor, Park;
    if s.fault.NoFault? && Q(s.at.tx, p) != [] && Live(s, Q(s.at.tx, p)[0]) {
      var m := Q(s.at.tx, p)[0];
      var msg, q, popped := s.msgs[m], ReqOf(s, m), Popped(s, p);
      if !NeedsCredit(c, msg) {
        DispatchWatch(c, popped, p.nid, m, n);
      } else {
        match CheckFlowctrl(c, FlowOf(s, p.nid), ChargedChannel(msg, q))
        case Granted(f) => DispatchWatch(c, ChargeFor(popped, p.nid, f, msg, q), p.nid, m, n);
        case _ =>
      }
    }
  }

  lemma DeliverWatch(c: Config, s: State, m: MsgId, x: Match)
    requires Sound(s)
    ensures Deliver(c, s, m, x).at.e2e == s.at.e2e
  {
    hide Exact, Parking, React, Apply, Unref, Shrunk, Buried, LinkSound;
    if s.fault.NoFault? && m in s.at.net {
      DeliverParts(c, s, m, x);
      ApplyWatch(c, Arrived(s, m), m, ReactionTo(c, s, m, x));
    }
  }

  lemma ConsumeWatch(s: State, m: MsgId)
    requires Sound(s)
    ensures ConsumeHeader(s, m).at.e2e == s.at.e2e
  {
    hide Exact, Parking, Unref, Shrunk, Buried, LinkSound;
    if s.fault.NoFault? && m in s.at.uh { ConsumeParts(s, m); }
  }

  lemma IssueWatch(s: State, k: Command)
    ensures Issue(s, k).at.e2e == s.at.e2e
  {
  }

  lemma NextWatch(c: Config, s: State, t: Step, n: Nid)
    requires Sound(s) && t != TimeoutStep(n)
    ensures KeepsWatch(c, s, Next(c, s, t), n)
  {
    hide Sound, Issue, Transmit, Deliver, Timeout, ConsumeHeader;
    match t
    case IssueStep(k) => IssueWatch(s, k);
    case TransmitStep(p) => TransmitWatch(c, s, p, n);
    case DeliverStep(m, x) => DeliverWatch(c, s, m, x);
    case TimeoutStep(k) => TimeoutWatch(c, s, k, n);
    case HeaderStep(m) => ConsumeWatch(s, m);
  }

  /** The E2E actor of one node does not touch the queues of others. */
  lemma TimeoutWatch(c: Config, s: State, k: Nid, n: Nid)
    requires Sound(s) && k != n
    ensures Q(Timeout(c, s, k).at.e2e, n) == Q(s.at.e2e, n)
  {
    hide Exact, Parking, Unref, Retransmit, Shrunk, Buried, LinkSound;
    if s.fault.NoFault? && Q(s.at.e2e, k) != [] {
      var m, s1 := Q(s.at.e2e, k)[0], Expired(s, k);
      TimeoutParts(c, s, k);
      RetransmitWatch(s1, k, m);
      if s1.msgs[m].retry > c.maxRetries && !AckedInTime(s1.msgs[m], ReqOf(s1, m)) {
        assert Timeout(c, s, k) == Fail(s1, RetryAboveMaximum);
      }
    }
  }

  lemma RetransmitWatch(s: State, n: Nid, m: MsgId)
    requires Live(s, m)
    ensures Retransmit(s, n, m).at.e2e == s.at.e2e
  {
  }

  lemma NextWatches(c: Config, s: State, t: Step, n: Nid, m: MsgId)
    requires Sound(s) && t != TimeoutStep(n) && m in Q(s.at.e2e, n)
    ensures m in Q(Next(c, s, t).at.e2e, n)
  {
    hide Sound, Next;
    NextWatch(c, s, t, n);
    CountIn(s.at.e2e, n, m);
    CountIn(Next(c, s, t).at.e2e, n, m);
  }

  lemma StepOf(c: Config, steps: seq<Step>)
    requires steps != []
    ensures Run(c, steps) == Next(c, Run(c, steps[..|steps| - 1]), steps[|steps| - 1])
  {
    hide Next;
  }

  lemma {:induction false} RunWatches(c: Config, steps: seq<Step>, more: seq<Step>, n: Nid, m: MsgId)
    requires m in Q(Run(c, steps).at.e2e, n) && forall i :: 0 <= i < |more| ==> more[i] != TimeoutStep(n)
    ensures m in Q(Run(c, steps + more).at.e2e, n)
  {
    hide Run, Sound, Next, Q;
    if more == [] {
      assert steps + more == steps;
    } else {
      var before, now := more[..|more| - 1], steps + more;
      assert now[..|now| - 1] == steps + before && now[|now| - 1] == more[|more| - 1];
      StepOf(c, now);
      RunWatches(c, steps, before, n, m);
      RunSound(c, steps + before);
      NextWatches(c, Run(c, steps + before), more[|more| - 1], n, m);
    }
  }

  /** With E2E on, what the initiator sends and reads afterwards - anything but an E2E ACK - stays readable,
      whatever arrives and whoever handles it, until the E2E actor of its node wakes up again. */
  lemma ReadableUntilTimeout(c: Config, steps: seq<Step>, p: Port, more: seq<Step>)
    requires !c.e2eOff && Run(c, steps).fault.NoFault? && Q(Run(c, steps).at.tx, p) != []
    requires var m := Q(Run(c, steps).at.tx, p)[0];
      && m in Run(c, steps + [TransmitStep(p)]).sent
      && (m in Run(c, steps).msgs ==> !Run(c, steps).msgs[m].typ.E2eAck?)
    requires forall i :: 0 <= i < |more| ==> more[i] != TimeoutStep(p.nid)
    requires Run(c, steps + [TransmitStep(p)] + more).fault.NoFault?
    ensures Live(Run(c, steps + [TransmitStep(p)] + more), Q(Run(c, steps).at.tx, p)[0])
  {
    var s, now := Run(c, steps), steps + [TransmitStep(p)];
    var m, t := Q(s.at.tx, p)[0], Run(c, now);
    assert now[..|now| - 1] == steps;
    assert t == Transmit(c, s, p);
    RunSound(c, steps);
    LeavesWatched(c, s, p);
    CountIn(t.at.e2e, p.nid, m);
    hide Run, Transmit;
    RunWatches(c, now, more, p.nid, m);
    var u := Run(c, now + more);
    CountIn(u.at.e2e, p.nid, m);
    RunSound(c, now + more);
    ReferredLives(u, m);
  }

  lemma LeavesWatched(c: Config, s: State, p: Port)
    requires !c.e2eOff && Sound(s) && s.fault.NoFault? && Q(s.at.tx, p) != []
    requires var m := Q(s.at.tx, p)[0];
      m in Transmit(c, s, p).sent && (m in s.msgs ==> !s.msgs[m].typ.E2eAck?)
    ensures Count(Transmit(c, s, p).at.e2e, p.nid, Q(s.at.tx, p)[0]) > 0
  {
    hide CheckFlowctrl, ChargedChannel, MessagesExact, RequestsExact, Kept, Dispatch, FlowOf;
    var m := Q(s.at.tx, p)[0];
    HeadWaits(s, p);
    LiveOwned(s, m);
    var msg, q, popped := s.msgs[m], ReqOf(s, m), Popped(s, p);
    hide KeepsWatch, Owned, Popped, ChargeFor, Park;
    if !NeedsCredit(c, msg) {
      DispatchWatch(c, popped, p.nid, m, p.nid);
    } else {
      match CheckFlowctrl(c, FlowOf(s, p.nid), ChargedChannel(msg, q))
      case Granted(f) =>
        if f.entries > 0 { DispatchWatch(c, ChargeFor(popped, p.nid, f, msg, q), p.nid, m, p.nid); }
      case _ =>
    }
  }

  lemma HeadWaits(s: State, p: Port)
    requires Parking(s) && Q(s.at.tx, p) != []
    ensures Q(s.at.tx, p)[0] in s.msgs && Q(s.at.tx, p)[0] !in s.sent
  {
    PopCount(s.at.tx, p);
    assert Waiting(s.at, p, Q(s.at.tx, p)[0]) > 0;
  }

  // ---------------------------------------------------------------- E2E off

  lemma {:induction false} NothingWatched(c: Config, steps: seq<Step>, n: Nid)
    requires c.e2eOff
    ensures Q(Run(c, steps).at.e2e, n) == []
  {
    if steps != [] {
      var s := Run(c, steps[..|steps| - 1]);
      NothingWatched(c, steps[..|steps| - 1], n);
      RunSound(c, steps[..|steps| - 1]);
      hide Sound, Run, Next;
      EmptyStays(c, s, steps[|steps| - 1], n);
      StepOf(c, steps);
    }
  }

  lemma NothingQueued(at: Places, n: Nid)
    requires forall m {:trigger Count(at.e2e, n, m)} :: Count(at.e2e, n, m) == 0
    ensures Q(at.e2e, n) == []
  {
    if Q(at.e2e, n) != [] { PopCount(at.e2e, n); }
  }

  lemma EmptyStays(c: Config, s: State, t: Step, n: Nid)
    requires c.e2eOff && Sound(s) && Q(s.at.e2e, n) == []
    ensures Q(Next(c, s, t).at.e2e, n) == []
  {
    if t == TimeoutStep(n) {
      assert Next(c, s, t) == s;
    } else {
      var u := Next(c, s, t);
      NextWatch(c, s, t, n);
      hide Next, Sound;
      NothingQueued(u.at, n);
    }
  }

  /** With E2E off a message can be read exactly as long as it is in flight, a pending header, or answered by a
      live ACK: the initiator that reads it later reads freed memory. */
  lemma ReadableWithoutE2e(c: Config, steps: seq<Step>, m: MsgId)
    requires c.e2eOff && Run(c, steps).fault.NoFault? && m in Run(c, steps).sent
    ensures var s := Run(c, steps);
      Live(s, m) <==> s.at.net[m] > 0 || s.at.uh[m] > 0 || exists k :: k in s.msgs && s.msgs[k].answers == Some(m)
  {
    ReadableExactly(c, steps, m);
    forall n ensures Count(Run(c, steps).at.e2e, n, m) == 0 { NothingWatched(c, steps, n); }
  }
}
