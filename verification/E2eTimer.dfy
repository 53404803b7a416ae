/** The timer of the E2E actor: one FIFO queue per node, a constant timeout, and a clock that other actors
    move. Times are real numbers. */
module E2eTimer {
  import opened Wire

  /** A message under watch; retransmitted copies keep the identity of the original. */
  datatype Watch = Watch(msg: MsgId, retry: nat, sentAt: real)

  datatype Settings = Settings(timeout: real, maxRetries: int)

  /** Nothing in the program checks the two numbers it reads. */
  predicate Sane(k: Settings) {
    k.timeout >= 0.0 && k.maxRetries >= 0
  }

  datatype Panic = Calm | NegativeSleep | TooManyRetries

  /** `resending` holds the copies given back to the initiator, `tally` how often each original message was
      retransmitted so far. */
  datatype Timer = Timer(
    clock: real,
    queue: seq<Watch>,
    current: Option<Watch>,
    resending: map<MsgId, nat>,
    tally: map<MsgId, nat>,
    panic: Panic)

  const PRECISION := 0.000000001

  const START := Timer(0.0, [], None, map[], map[], Calm)

  function Deadline(k: Settings, w: Watch): real {
    w.sentAt + k.timeout
  }

  /** The actor sleeps only if its message is due later than the precision of the simulation. */
  predicate Sleeps(k: Settings, t: Timer) {
    t.current.Some? && Deadline(k, t.current.value) > t.clock + PRECISION
  }

  // ---------------------------------------------------------------- steps

  /** process_message, for a message never seen before or for a copy that was given back. */
  function Send(t: Timer, m: MsgId): Timer {
    if t.panic != Calm then t
    else if m in t.resending
      then t.(queue := t.queue + [Watch(m, t.resending[m], t.clock)], resending := t.resending - {m})
    else if m in t.tally then t
    else t.(queue := t.queue + [Watch(m, 0, t.clock)], tally := t.tally[m := 0])
  }

  /** Simulated time passes only while the actor is blocked, and never past its wake-up. */
  function Tick(k: Settings, t: Timer, clock: real): Timer {
    if t.panic != Calm || clock < t.clock then t
    else if t.current.None? then (if t.queue == [] then t.(clock := clock) else t)
    else if Sleeps(k, t) && clock <= Deadline(k, t.current.value) then t.(clock := clock)
    else t
  }

  /** The actor takes the oldest message and computes how long to sleep. */
  function Take(k: Settings, t: Timer): Timer {
    if t.panic != Calm || t.current.Some? || t.queue == [] then t
    else if Deadline(k, t.queue[0]) < t.clock then t.(panic := NegativeSleep)
    else t.(queue := t.queue[1..], current := Some(t.queue[0]))
  }

  /** Once awake: the message was acknowledged, is given up, or is given back for one more try. */
  function Wake(k: Settings, t: Timer, acked: bool): Timer {
    if t.panic != Calm || t.current.None? || (Sleeps(k, t) && t.clock < Deadline(k, t.current.value)) then t
    else
      var w := t.current.value;
      if acked || w.retry == k.maxRetries then t.(current := None)
      else if w.retry < k.maxRetries
        then t.(current := None, resending := t.resending[w.msg := w.retry + 1],
                tally := t.tally[w.msg := (if w.msg in t.tally then t.tally[w.msg] else 0) + 1])
      else t.(panic := TooManyRetries)
  }

  datatype Event = Watching(msg: MsgId) | TickEvent(clock: real) | TakeEvent | WakeEvent(acked: bool)

  function Step(k: Settings, t: Timer, e: Event): Timer {
    match e
    case Watching(m) => Send(t, m)
    case TickEvent(clock) => Tick(k, t, clock)
    case TakeEvent => Take(k, t)
    case WakeEvent(acked) => Wake(k, t, acked)
  }

  function TimerRun(k: Settings, events: seq<Event>): Timer {
    if events == [] then START else Step(k, TimerRun(k, events[..|events| - 1]), events[|events| - 1])
  }

  // ---------------------------------------------------------------- the invariant

  /** Every message under watch, the one the actor sleeps on first. */
  function Watched(t: Timer): seq<Watch> {
    (if t.current.Some? then [t.current.value] else []) + t.queue
  }

  ghost predicate SortedBySending(ws: seq<Watch>) {
    forall i, j :: 0 <= i < j < |ws| ==> ws[i].sentAt <= ws[j].sentAt
  }

  /** Nothing was sent in the future, and nothing is overdue. */
  ghost predicate Punctual(k: Settings, clock: real, ws: seq<Watch>) {
    forall i :: 0 <= i < |ws| ==> ws[i].sentAt <= clock <= Deadline(k, ws[i])
  }

  /** A message is watched once or waits to be sent again, with its number of retransmissions. */
  ghost predicate Tallied(k: Settings, ws: seq<Watch>, resending: map<MsgId, nat>, tally: map<MsgId, nat>) {
    && (forall i :: 0 <= i < |ws| ==> ws[i].msg in tally && ws[i].retry == tally[ws[i].msg] && ws[i].msg !in resending)
    && (forall i, j :: 0 <= i < j < |ws| ==> ws[i].msg != ws[j].msg)
    && (forall m {:trigger m in resending} :: m in resending ==> m in tally && resending[m] == tally[m])
    && (forall m {:trigger tally[m]} :: m in tally ==> tally[m] <= k.maxRetries)
  }

  ghost predicate Regular(k: Settings, t: Timer) {
    && t.panic == Calm && SortedBySending(Watched(t)) && Punctual(k, t.clock, Watched(t))
    && Tallied(k, Watched(t), t.resending, t.tally)
  }

  /** What Send appends, if anything. */
  lemma SendWatches(t: Timer, m: MsgId)
    ensures var ws, u := Watched(t), Send(t, m);
      || (u == t)
      || (exists retry ::
            && Watched(u) == ws + [Watch(m, retry, t.clock)] && u.clock == t.clock && u.panic == t.panic
            && (if m in t.resending
                then retry == t.resending[m] && u.resending == t.resending - {m} && u.tally == t.tally
                else m !in t.tally && retry == 0 && u.resending == t.resending && u.tally == t.tally[m := 0]))
  {
    if Send(t, m) != t {
      var retry := if m in t.resending then t.resending[m] else 0;
      assert Watched(Send(t, m)) == Watched(t) + [Watch(m, retry, t.clock)];
    }
  }

  lemma SendTallied(k: Settings, t: Timer, u: Timer, m: MsgId, retry: nat)
    requires k.maxRetries >= 0 && Tallied(k, Watched(t), t.resending, t.tally)
    requires Watched(u) == Watched(t) + [Watch(m, retry, t.clock)]
    requires if m in t.resending then retry == t.resending[m] && u.resending == t.resending - {m} && u.tally == t.tally
             else m !in t.tally && retry == 0 && u.resending == t.resending && u.tally == t.tally[m := 0]
    ensures Tallied(k, Watched(u), u.resending, u.tally)
  {
    var ws, ws' := Watched(t), Watched(u);
    hide Watched;
    forall i | 0 <= i < |ws| ensures ws'[i] == ws[i] && ws[i].msg != m { }
  }

  lemma SendRegular(k: Settings, t: Timer, m: MsgId)
    requires Regular(k, t) && Sane(k)
    ensures Regular(k, Send(t, m))
  {
    var u := Send(t, m);
    SendWatches(t, m);
    hide Send, Tallied, Watched;
    if u != t {
      var retry :| Watched(u) == Watched(t) + [Watch(m, retry, t.clock)]
        && (if m in t.resending then retry == t.resending[m] && u.resending == t.resending - {m} && u.tally == t.tally
            else m !in t.tally && retry == 0 && u.resending == t.resending && u.tally == t.tally[m := 0]);
      SendTallied(k, t, u, m, retry);
      forall i | 0 <= i < |Watched(t)| ensures Watched(u)[i] == Watched(t)[i] { }
    }
  }

  lemma TickRegular(k: Settings, t: Timer, clock: real)
    requires Regular(k, t)
    ensures Regular(k, Tick(k, t, clock))
  {
    var u := Tick(k, t, clock);
    assert Watched(u) == Watched(t);
    hide Tallied;
    if t.current.Some? { assert Watched(t)[0] == t.current.value; }
  }

  lemma TakeRegular(k: Settings, t: Timer)
    requires Regular(k, t)
    ensures Regular(k, Take(k, t))
  {
    if t.current.None? && t.queue != [] {
      assert Watched(t)[0] == t.queue[0];
      assert Watched(Take(k, t)) == Watched(t);
    }
  }

  /** The first message leaves: for good, or with one more retransmission on its account. */
  lemma HeadTallied(k: Settings, ws: seq<Watch>, resending: map<MsgId, nat>, tally: map<MsgId, nat>)
    requires Tallied(k, ws, resending, tally) && ws != []
    ensures Tallied(k, ws[1..], resending, tally)
    ensures ws[0].msg in tally && ws[0].retry == tally[ws[0].msg] <= k.maxRetries
    ensures ws[0].retry < k.maxRetries ==>
      Tallied(k, ws[1..], resending[ws[0].msg := ws[0].retry + 1], tally[ws[0].msg := tally[ws[0].msg] + 1])
  {
  }

  lemma WakeRegular(k: Settings, t: Timer, acked: bool)
    requires Regular(k, t)
    ensures Regular(k, Wake(k, t, acked))
  {
    hide Tallied, Punctual, SortedBySending, Sleeps, Deadline;
    var u := Wake(k, t, acked);
    if t.current.Some? && u != t {
      var ws := Watched(t);
      assert ws[0] == t.current.value;
      HeadTallied(k, ws, t.resending, t.tally);
      HeadPunctual(k, t.clock, ws);
      assert u.current.None? ==> Watched(u) == ws[1..];
      hide Watched;
    }
  }

  lemma HeadPunctual(k: Settings, clock: real, ws: seq<Watch>)
    requires SortedBySending(ws) && Punctual(k, clock, ws) && ws != []
    ensures SortedBySending(ws[1..]) && Punctual(k, clock, ws[1..])
  {
  }

  lemma StepRegular(k: Settings, t: Timer, e: Event)
    requires Regular(k, t) && Sane(k)
    ensures Regular(k, Step(k, t, e))
  {
    hide Regular, Send, Tick, Take, Wake;
    match e
    case Watching(m) => SendRegular(k, t, m);
    case TickEvent(clock) => TickRegular(k, t, clock);
    case TakeEvent => TakeRegular(k, t);
    case WakeEvent(acked) => WakeRegular(k, t, acked);
  }

  lemma {:induction false} RunRegular(k: Settings, events: seq<Event>)
    requires Sane(k)
    ensures Regular(k, TimerRun(k, events))
  {
    if events != [] {
      hide Regular, Step;
      RunRegular(k, events[..|events| - 1]);
      StepRegular(k, TimerRun(k, events[..|events| - 1]), events[|events| - 1]);
    }
  }

  // ---------------------------------------------------------------- theorems

  /** In every run the queue is sorted by deadline and the clock has passed none of them, whatever is sent
      and acknowledged in between. */
  lemma QueueSortedByDeadline(k: Settings, events: seq<Event>, i: nat, j: nat)
    requires Sane(k) && i < j < |Watched(TimerRun(k, events))|
    ensures var t := TimerRun(k, events);
      t.clock <= Watched(t)[i].sentAt + k.timeout <= Watched(t)[j].sentAt + k.timeout
  {
    RunRegular(k, events);
  }

  lemma RunExtends(k: Settings, events: seq<Event>, n: nat)
    requires n < |events|
    ensures TimerRun(k, events[..n + 1]) == Step(k, TimerRun(k, events[..n]), events[n])
  {
    assert events[..n + 1][..n] == events[..n];
  }

  /** Both panics are out of reach exactly when neither the timeout nor the number of retries is negative. */
  lemma NeverLate(k: Settings)
    ensures Sane(k) <==> forall events :: TimerRun(k, events).panic == Calm
  {
    if Sane(k) {
      forall events ensures TimerRun(k, events).panic == Calm { RunRegular(k, events); }
    } else {
      var events := [Watching(0), TakeEvent, TickEvent(k.timeout), WakeEvent(false)];
      RunExtends(k, events, 0);
      RunExtends(k, events, 1);
      RunExtends(k, events, 2);
      RunExtends(k, events, 3);
      assert events[..4] == events && events[..0] == [];
      assert TimerRun(k, events).panic != Calm;
    }
  }

  /** Whenever the actor decides about a message, it is neither late nor early by more than the precision. */
  lemma DecidesOnTime(k: Settings, events: seq<Event>, acked: bool)
    requires Sane(k)
    requires Wake(k, TimerRun(k, events), acked) != TimerRun(k, events)
    ensures var t := TimerRun(k, events);
      && t.current.Some?
      && var due := t.current.value.sentAt + k.timeout;
         due - PRECISION <= t.clock <= due
  {
    RunRegular(k, events);
    var t := TimerRun(k, events);
    assert Watched(t)[0] == t.current.value;
  }

  /** No message is retransmitted more often than configured, and each try is watched only once. */
  lemma RetriesBounded(k: Settings, events: seq<Event>, m: MsgId)
    requires Sane(k) && m in TimerRun(k, events).tally
    ensures TimerRun(k, events).tally[m] <= k.maxRetries
    ensures var ws := Watched(TimerRun(k, events));
      forall i, j :: 0 <= i < |ws| && 0 <= j < |ws| && ws[i].msg == m && ws[j].msg == m ==> i == j
  {
    RunRegular(k, events);
  }

  // ---------------------------------------------------------------- the actor

  datatype Decision = Acked | GaveUp | Retransmit(copy: Watch) | Aborted(panic: Panic)

  /** BxiNicE2E with the two counters it keeps on its node. One turn of its endless loop is TakeOldest, a
      sleep, and Decide. */
  class BxiNicE2E {
    const settings: Settings
    var queue: seq<Watch>
    var currentMsg: Option<Watch>
    var e2eRetried: nat
    var e2eGaveUp: nat

    constructor (k: Settings)
      ensures settings == k && queue == [] && currentMsg == None && e2eRetried == 0 && e2eGaveUp == 0
    {
      settings := k;
      queue := [];
      currentMsg := None;
      e2eRetried := 0;
      e2eGaveUp := 0;
    }

    /** The object holds what the timer `t` says. */
    predicate Holds(t: Timer)
      reads this
    {
      queue == t.queue && currentMsg == t.current
    }

    method ProcessMessage(clock: real, m: MsgId, retry: nat, ghost t: Timer)
      requires Holds(t) && t.panic == Calm && t.clock == clock
      requires if m in t.resending then retry == t.resending[m] else m !in t.tally && retry == 0
      modifies `queue
      ensures Holds(Send(t, m)) && queue == old(queue) + [Watch(m, retry, clock)]
    {
      queue := queue + [Watch(m, retry, clock)];
    }

    /** Returns the time to sleep until, or nothing if the sleep would be negative. */
    method TakeOldest(clock: real, ghost t: Timer) returns (wakeUp: Option<real>)
      requires Holds(t) && t.panic == Calm && t.clock == clock && queue != [] && currentMsg == None
      modifies `queue, `currentMsg
      ensures if Take(settings, t).panic == Calm
              then Holds(Take(settings, t)) && wakeUp == Some(old(queue)[0].sentAt + settings.timeout)
              else wakeUp == None
      ensures wakeUp == None <==> old(queue)[0].sentAt + settings.timeout < clock
      ensures currentMsg == Some(old(queue)[0]) && queue == old(queue)[1..]
    {
      var msg := queue[0];
      queue := queue[1..];
      currentMsg := Some(msg);
      if Deadline(settings, msg) < clock {
        return None;
      }
      return Some(Deadline(settings, msg));
    }

    method Decide(acked: bool, ghost t: Timer) returns (d: Decision)
      requires Holds(t) && t.panic == Calm && currentMsg.Some?
      requires !(Sleeps(settings, t) && t.clock < Deadline(settings, t.current.value))
      modifies `currentMsg, `e2eRetried, `e2eGaveUp
      ensures var u := Wake(settings, t, acked);
        if u.panic == Calm then Holds(u) else d == Aborted(u.panic)
      ensures d.Acked? <==> acked
      ensures d.GaveUp? <==> !acked && old(currentMsg).value.retry == settings.maxRetries
      ensures d.Retransmit? ==>
        var m := old(currentMsg).value.msg;
        d.copy == old(currentMsg).value.(retry := old(currentMsg).value.retry + 1)
        && Wake(settings, t, acked).resending == t.resending[m := d.copy.retry]
      ensures d.Acked? || d.GaveUp? ==> Wake(settings, t, acked).resending == t.resending
      ensures e2eGaveUp == old(e2eGaveUp) + (if d.GaveUp? then 1 else 0)
      ensures e2eRetried == old(e2eRetried) + (if d.Retransmit? then 1 else 0)
    {
      var msg := currentMsg.value;
      if acked {
        currentMsg := None;
        return Acked;
      }
      if msg.retry == settings.maxRetries {
        e2eGaveUp := e2eGaveUp + 1;
        currentMsg := None;
        return GaveUp;
      }
      if msg.retry < settings.maxRetries {
        e2eRetried := e2eRetried + 1;
        currentMsg := None;
        return Retransmit(msg.(retry := msg.retry + 1));
      }
      return Aborted(TooManyRetries);
    }
  }
}
