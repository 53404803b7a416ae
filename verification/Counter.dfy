/** BxiCT: a Portals counter with the actors that wait for a threshold. Waiters are found by equality, so a
    counter that jumps over a threshold misses its waiter. Counts are 64-bit. */
module Counter {
  import opened Words

  datatype Waiter = Waiter(actor: nat, test: Size)

  /** `resumed` is history: the waiters woken up so far. */
  datatype Ct = Ct(success: Size, failure: Size, waiting: seq<Waiter>, resumed: seq<Waiter>)

  const ZERO := Ct(0, 0, [], [])

  // ---------------------------------------------------------------- on_update

  predicate Wakes(success: Size, failure: Size, w: Waiter) {
    w.test == success || failure != 0
  }

  function Staying(success: Size, failure: Size, ws: seq<Waiter>): seq<Waiter> {
    if ws == [] then []
    else (if Wakes(success, failure, ws[0]) then [] else [ws[0]]) + Staying(success, failure, ws[1..])
  }

  function Woken(success: Size, failure: Size, ws: seq<Waiter>): seq<Waiter> {
    if ws == [] then []
    else (if Wakes(success, failure, ws[0]) then [ws[0]] else []) + Woken(success, failure, ws[1..])
  }

  /** A new value and the wake-ups it causes. */
  function Updated(t: Ct, success: Size, failure: Size): Ct {
    Ct(success, failure, Staying(success, failure, t.waiting), t.resumed + Woken(success, failure, t.waiting))
  }

  datatype Event =
    | IncrementSuccess(amount: Size)
    | Increment(success: Size, failure: Size)
    | SetValue(success: Size, failure: Size)
    | Wait(actor: nat, test: Size)

  /** A waiter queues only if its threshold is not reached and nothing failed. */
  function Step(t: Ct, e: Event): Ct {
    match e
    case IncrementSuccess(amount) => Updated(t, Plus(t.success, amount), t.failure)
    case Increment(success, failure) => Updated(t, Plus(t.success, success), Plus(t.failure, failure))
    case SetValue(success, failure) => Updated(t, success, failure)
    case Wait(actor, test) =>
      if t.success < test && t.failure == 0 then t.(waiting := t.waiting + [Waiter(actor, test)]) else t
  }

  function CtRun(events: seq<Event>): Ct {
    if events == [] then ZERO else Step(CtRun(events[..|events| - 1]), events[|events| - 1])
  }

  // ---------------------------------------------------------------- who stays and who is woken

  /** Nobody waits for a threshold that is reached, and nobody waits on a counter that failed. */
  ghost predicate Served(t: Ct) {
    forall w :: w in t.waiting ==> t.success < w.test && t.failure == 0
  }

  lemma {:induction false} Partitioned(success: Size, failure: Size, ws: seq<Waiter>)
    ensures forall w :: w in Staying(success, failure, ws) <==> w in ws && !Wakes(success, failure, w)
    ensures forall w :: w in Woken(success, failure, ws) <==> w in ws && Wakes(success, failure, w)
    ensures multiset(ws) == multiset(Staying(success, failure, ws)) + multiset(Woken(success, failure, ws))
  {
    if ws != [] {
      Partitioned(success, failure, ws[1..]);
      assert ws == [ws[0]] + ws[1..];
    }
  }

  /** An update leaves every waiter served exactly if the counter fails or jumps over no waiter's threshold. */
  lemma UpdateServes(t: Ct, success: Size, failure: Size)
    requires Served(t)
    ensures Served(Updated(t, success, failure)) <==> failure != 0 || forall w :: w in t.waiting ==> w.test >= success
  {
    Partitioned(success, failure, t.waiting);
    if failure == 0 && exists w :: w in t.waiting && w.test < success {
      var w :| w in t.waiting && w.test < success;
      assert w in Updated(t, success, failure).waiting;
    }
  }

  /** The updates that are safe whoever waits: failures, and successes raised by at most one. */
  lemma SafeUpdates(from: Size, success: Size, failure: Size)
    ensures (forall ws, done {:trigger Updated(Ct(from, 0, ws, done), success, failure)} ::
               Served(Ct(from, 0, ws, done)) ==> Served(Updated(Ct(from, 0, ws, done), success, failure)))
            <==> failure != 0 || success <= from + 1
  {
    forall ws, done | Served(Ct(from, 0, ws, done)) && (failure != 0 || success <= from + 1)
      ensures Served(Updated(Ct(from, 0, ws, done), success, failure))
    {
      UpdateServes(Ct(from, 0, ws, done), success, failure);
    }
    if failure == 0 && success > from + 1 {
      var t := Ct(from, 0, [Waiter(0, from + 1)], []);
      UpdateServes(t, success, failure);
      assert Waiter(0, from + 1) in t.waiting;
      assert Served(t) && !Served(Updated(t, success, failure));
    }
  }

  // ---------------------------------------------------------------- runs

  /** What was counted since the counter was last set, without any bound. */
  function Counted(events: seq<Event>): (nat, nat) {
    if events == [] then (0, 0)
    else
      var (success, failure) := Counted(events[..|events| - 1]);
      match events[|events| - 1]
      case IncrementSuccess(amount) => (success + amount, failure)
      case Increment(moreSuccess, moreFailure) => (success + moreSuccess, failure + moreFailure)
      case SetValue(newSuccess, newFailure) => (newSuccess, newFailure)
      case Wait(_, _) => (success, failure)
  }

  /** In every run the counter holds the successes and the failures counted since it was last set, in 64 bits. */
  lemma {:induction false} HoldsCounted(events: seq<Event>)
    ensures CtRun(events).success == Counted(events).0 % WORD && CtRun(events).failure == Counted(events).1 % WORD
  {
    if events != [] {
      var before, e := events[..|events| - 1], events[|events| - 1];
      HoldsCounted(before);
      match e
      case IncrementSuccess(amount) => SumWraps(Counted(before).0, amount);
      case Increment(success, failure) => SumWraps(Counted(before).0, success); SumWraps(Counted(before).1, failure);
      case SetValue(_, _) =>
      case Wait(_, _) =>
      hide Plus, Staying, Woken;
    }
  }

  lemma SumWraps(count: nat, more: Size)
    ensures Plus(count % WORD, more) == (count + more) % WORD
  {
  }

  /** The value an event gives the counter. */
  function NewValue(t: Ct, e: Event): (Size, Size) {
    match e
    case IncrementSuccess(amount) => (Plus(t.success, amount), t.failure)
    case Increment(success, failure) => (Plus(t.success, success), Plus(t.failure, failure))
    case SetValue(success, failure) => (success, failure)
    case Wait(_, _) => (t.success, t.failure)
  }

  /** The counter moves by unit successes, failures, and sets that do not raise the success count. */
  predicate Smooth(t: Ct, e: Event) {
    NewValue(t, e).1 != 0 || NewValue(t, e).0 <= t.success + 1
  }

  predicate SmoothRun(events: seq<Event>) {
    events == [] || (SmoothRun(events[..|events| - 1]) && Smooth(CtRun(events[..|events| - 1]), events[|events| - 1]))
  }

  /** In a smooth run no waiter is left behind, although on_update compares for equality. */
  lemma {:induction false} WaitersServed(events: seq<Event>)
    requires SmoothRun(events)
    ensures Served(CtRun(events))
  {
    if events != [] {
      var t, e := CtRun(events[..|events| - 1]), events[|events| - 1];
      WaitersServed(events[..|events| - 1]);
      UpdateServes(t, NewValue(t, e).0, NewValue(t, e).1);
    }
  }

  /** Every waiter that queued is still there or was woken, once; and no wake-up is spurious. */
  lemma {:induction false} WokenOnce(events: seq<Event>, e: Event)
    ensures var t, u := CtRun(events), Step(CtRun(events), e);
      && t.resumed <= u.resumed
      && multiset(u.waiting) + multiset(u.resumed) ==
           multiset(t.waiting) + multiset(t.resumed) +
           (if e.Wait? && t.success < e.test && t.failure == 0 then multiset{Waiter(e.actor, e.test)} else multiset{})
      && forall w :: w in u.resumed[|t.resumed|..] ==> u.failure != 0 || w.test == u.success
  {
    var t := CtRun(events);
    if !e.Wait? {
      Partitioned(NewValue(t, e).0, NewValue(t, e).1, t.waiting);
    }
  }

  /** A waiter whose threshold was jumped over is not woken by any number of unit successes to come, until
      the count wraps. */
  lemma {:induction false} SkippedStaysAsleep(t: Ct, w: Waiter, n: nat)
    requires w in t.waiting && w.test < t.success && t.failure == 0 && t.success + n < WORD
    ensures var u := Successes(t, n); w in u.waiting && u.success == t.success + n && u.failure == 0
  {
    if n > 0 {
      SkippedStaysAsleep(t, w, n - 1);
      OneSuccess(Successes(t, n - 1), w);
    }
  }

  lemma OneSuccess(u: Ct, w: Waiter)
    requires w in u.waiting && w.test < u.success && u.failure == 0 && u.success + 1 < WORD
    ensures var v := Step(u, IncrementSuccess(1)); w in v.waiting && v.success == u.success + 1 && v.failure == 0
  {
    hide Staying, Woken, Wakes;
    Partitioned(u.success + 1, 0, u.waiting);
    NotWoken(u.success + 1, w);
  }

  lemma NotWoken(success: Size, w: Waiter)
    requires w.test < success
    ensures !Wakes(success, 0, w)
  {
  }

  function Successes(t: Ct, n: nat): Ct {
    if n == 0 then t else Step(Successes(t, n - 1), IncrementSuccess(1))
  }

  /** A counter of bytes: the waiter for 5 is still asleep after a message of 8 bytes. */
  lemma BytesSkipWaiter()
    ensures var t := CtRun([Wait(0, 5), IncrementSuccess(8)]);
      Waiter(0, 5) in t.waiting && t.success == 8 && t.failure == 0
  {
    var events := [Wait(0, 5), IncrementSuccess(8)];
    assert events[..1] == [Wait(0, 5)] && events[..1][..0] == [];
    assert CtRun(events[..1]) == Ct(0, 0, [Waiter(0, 5)], []);
    Partitioned(8, 0, [Waiter(0, 5)]);
  }

  // ---------------------------------------------------------------- the object

  lemma NoWaiters(success: Size, failure: Size, ws: seq<Waiter>)
    requires ws == []
    ensures Staying(success, failure, ws) == [] && Woken(success, failure, ws) == []
  {
  }

  /** One waiter of a list that is walked over, with `kept` before it: it is erased, or joins `kept`. */
  lemma NextWaiter(success: Size, failure: Size, all: seq<Waiter>, k: nat, kept: seq<Waiter>, woken: seq<Waiter>)
    requires k < |all|
    ensures var ws, w, rest := kept + all[k..], all[k], all[k + 1..];
      && ws[|kept|] == w && ws[..|kept|] + ws[|kept| + 1..] == kept + rest && ws == kept + [w] + rest
      && var stay, wake := Staying(success, failure, rest), Woken(success, failure, rest);
         if Wakes(success, failure, w)
         then kept + Staying(success, failure, all[k..]) == kept + stay
              && woken + Woken(success, failure, all[k..]) == woken + [w] + wake
         else kept + Staying(success, failure, all[k..]) == kept + [w] + stay
              && woken + Woken(success, failure, all[k..]) == woken + wake
  {
    assert all[k..] == [all[k]] + all[k + 1..];
  }

  class BxiCT {
    var success: Size
    var failure: Size
    var waiting: seq<Waiter>
    ghost var resumed: seq<Waiter>

    ghost function View(): Ct
      reads this
    {
      Ct(success, failure, waiting, resumed)
    }

    constructor ()
      ensures View() == ZERO
    {
      success := 0;
      failure := 0;
      waiting := [];
      resumed := [];
    }

    /** Erases from the list it walks over: the index steps back before it moves on. */
    method OnUpdate()
      modifies `waiting, `resumed
      ensures View() == Updated(old(View()), success, failure)
    {
      hide Staying, Woken;
      var it := 0;
      ghost var all, kept, k := waiting, [], 0;
      assert all[0..] == all;
      while it < |waiting|
        invariant it == |kept| && 0 <= k <= |all| && waiting == kept + all[k..]
        invariant Staying(success, failure, all) == kept + Staying(success, failure, all[k..])
        invariant old(resumed) + Woken(success, failure, all) == resumed + Woken(success, failure, all[k..])
        decreases |all| - k
      {
        NextWaiter(success, failure, all, k, kept, resumed);
        if waiting[it].test == success || failure != 0 {
          resumed := resumed + [waiting[it]];
          waiting := waiting[..it] + waiting[it + 1..];
          it := it - 1;
        } else {
          kept := kept + [waiting[it]];
        }
        it := it + 1;
        k := k + 1;
      }
      NoWaiters(success, failure, all[k..]);
    }

    method IncrementSuccess(amount: Size)
      modifies this
      ensures View() == Step(old(View()), Event.IncrementSuccess(amount))
    {
      success := Plus(success, amount);
      OnUpdate();
    }

    method SetValue(newSuccess: Size, newFailure: Size)
      modifies this
      ensures View() == Step(old(View()), Event.SetValue(newSuccess, newFailure))
    {
      success, failure := newSuccess, newFailure;
      OnUpdate();
    }

    method Increment(moreSuccess: Size, moreFailure: Size)
      modifies this
      ensures View() == Step(old(View()), Event.Increment(moreSuccess, moreFailure))
    {
      success, failure := Plus(success, moreSuccess), Plus(failure, moreFailure);
      OnUpdate();
    }

    /** Returns whether the caller has to be suspended. */
    method Wait(actor: nat, test: Size) returns (suspended: bool)
      modifies `waiting
      ensures View() == Step(old(View()), Event.Wait(actor, test))
      ensures suspended <==> success < test && failure == 0
    {
      suspended := success < test && failure == 0;
      if suspended {
        waiting := waiting + [Waiter(actor, test)];
      }
    }
  }
}
