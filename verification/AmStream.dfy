/**
 The queue of one active message stream and the calls that wait on it.

 A worker is used by one thread, so a step is a whole poll of a waiter or a whole receive callback.
 `Notify` is tokio's: it stores at most one permit, wakes waiters in the order they came, and passes
 the notification of a cancelled waiter on.
 */
module AmStream {
  import opened Wrappers
  import opened Runs

  type Waiter = nat

  /** `notified` are the waiters that were woken and have not been polled since. */
  datatype Notify = Notify(permit: bool, waiting: seq<Waiter>, notified: set<Waiter>)

  function NotifyOne(n: Notify): Notify {
    if n.waiting == [] then
      n.(permit := true)
    else
      n.(waiting := n.waiting[1..], notified := n.notified + {n.waiting[0]})
  }

  function Without(waiting: seq<Waiter>, w: Waiter): seq<Waiter> {
    if waiting == [] then []
    else if waiting[0] == w then waiting[1..]
    else [waiting[0]] + Without(waiting[1..], w)
  }

  /** Dropping a `Notified` future. */
  function Forsake(n: Notify, w: Waiter): Notify {
    if w in n.notified then
      NotifyOne(n.(notified := n.notified - {w}))
    else
      n.(waiting := Without(n.waiting, w))
  }

  /** `pushed` and `returned` are history: all messages ever queued, and all that calls returned. */
  datatype Stream<M> = Stream(
    queue: seq<M>,
    notify: Notify,
    unregistered: bool,
    pushed: seq<M>,
    returned: seq<M>)

  function NewStream<M>(): Stream<M> {
    Stream([], Notify(false, [], {}), false, [], [])
  }

  /** `AmStreamInner::callback`. */
  function Push<M>(s: Stream<M>, m: M): Stream<M> {
    s.(queue := s.queue + [m], pushed := s.pushed + [m], notify := NotifyOne(s.notify))
  }

  function Unregister<M>(s: Stream<M>): Stream<M> {
    s.(unregistered := true)
  }

  function Pop<M>(s: Stream<M>): (Stream<M>, Option<M>) {
    if s.queue == [] then (s, None)
    else (s.(queue := s.queue[1..], returned := s.returned + [s.queue[0]]), Some(s.queue[0]))
  }

  /** A poll of `wait_msg` by `w`, a waiter that is parked, one that was notified, or a new call. */
  function PollWait<M>(s: Stream<M>, w: Waiter): (Stream<M>, Poll<Option<M>>) {
    if w in s.notify.waiting then
      (s, Pending)
    else
      var resumed := s.(notify := s.notify.(notified := s.notify.notified - {w}));
      if s.unregistered || s.queue != [] then
        var (after, popped) := Pop(resumed);
        (after, Ready(popped))
      else
        (resumed.(notify := resumed.notify.(permit := false, waiting := s.notify.waiting + [w])), Pending)
  }

  function Cancel<M>(s: Stream<M>, w: Waiter): Stream<M> {
    s.(notify := Forsake(s.notify, w))
  }

  datatype Step<M> = DoPush(m: M) | DoUnregister | DoPoll(w: Waiter) | DoCancel(w: Waiter)

  function Next<M>(s: Stream<M>, step: Step<M>): Option<Stream<M>> {
    match step
    case DoPush(m) => Some(Push(s, m))
    case DoUnregister => Some(Unregister(s))
    case DoPoll(w) => Some(PollWait(s, w).0)
    case DoCancel(w) => Some(Cancel(s, w))
  }

  // ---- What holds after every step ----

  /** While somebody is parked no permit is unused, and every queued message has a notified waiter to fetch it. */
  ghost predicate NoLostNotification<M>(s: Stream<M>) {
    s.notify.waiting != [] ==> !s.notify.permit && |s.queue| <= |s.notify.notified|
  }

  /** What was returned, followed by what is queued, is what was pushed. */
  ghost predicate Fifo<M>(s: Stream<M>) {
    s.returned + s.queue == s.pushed
  }

  ghost predicate Distinct(waiting: seq<Waiter>) {
    forall i, j :: 0 <= i < j < |waiting| ==> waiting[i] != waiting[j]
  }

  ghost predicate Inv<M>(s: Stream<M>) {
    && Distinct(s.notify.waiting)
    && (forall w :: w in s.notify.waiting ==> w !in s.notify.notified)
    && NoLostNotification(s)
    && Fifo(s)
  }

  lemma {:induction false} WithoutRemoves(waiting: seq<Waiter>, w: Waiter)
    requires Distinct(waiting)
    ensures Distinct(Without(waiting, w))
    ensures forall v :: v in Without(waiting, w) <==> v in waiting && v != w
  {
    if waiting == [] {
      assert Without(waiting, w) == [];
    } else {
      var rest := waiting[1..];
      assert waiting == [waiting[0]] + rest;
      WithoutRemoves(rest, w);
      assert waiting[0] !in rest;
    }
  }

  lemma PushKeepsInv<M>(s: Stream<M>, m: M)
    requires Inv(s)
    ensures Inv(Push(s, m))
  {
    assert s.returned + (s.queue + [m]) == s.returned + s.queue + [m];
    if s.notify.waiting != [] {
      assert s.notify.waiting[0] !in s.notify.notified;
    }
  }

  lemma PollKeepsInv<M>(s: Stream<M>, w: Waiter)
    requires Inv(s)
    ensures Inv(PollWait(s, w).0)
  {
    if w !in s.notify.waiting && s.queue != [] {
      assert s.queue == [s.queue[0]] + s.queue[1..];
      assert s.returned + [s.queue[0]] + s.queue[1..] == s.returned + s.queue;
      if s.notify.waiting != [] && w !in s.notify.notified {
        assert s.notify.notified - {w} == s.notify.notified;
      }
    }
  }

  lemma CancelKeepsInv<M>(s: Stream<M>, w: Waiter)
    requires Inv(s)
    ensures Inv(Cancel(s, w))
  {
    if w !in s.notify.notified {
      WithoutRemoves(s.notify.waiting, w);
      if s.notify.waiting == [] {
        assert Without(s.notify.waiting, w) == [];
      }
    }
  }

  lemma {:induction false} RunKeepsInv<M(!new)>(s: Stream<M>, steps: seq<Step<M>>)
    requires Inv(s) && Run<Stream<M>, Step<M>>(Next, s, steps).Some?
    ensures Inv(Run<Stream<M>, Step<M>>(Next, s, steps).value)
  {
    forall t: Stream<M>, l: Step<M> | Inv(t) && Next(t, l).Some? ensures Inv(Next(t, l).value) {
      match l
      case DoPush(m) => PushKeepsInv(t, m);
      case DoUnregister =>
      case DoPoll(w) => PollKeepsInv(t, w);
      case DoCancel(w) => CancelKeepsInv(t, w);
    }
    Preserved<Stream<M>, Step<M>>(Next, t => Inv(t), s, steps);
  }

  // ---- Main results ----

  /**
   Over any number of waiters, pushes, cancellations and unregistrations, no notification is lost and the
   order is kept.
   */
  lemma {:induction false} EveryRunIsSafe<M(!new)>(steps: seq<Step<M>>)
    requires Run<Stream<M>, Step<M>>(Next, NewStream(), steps).Some?
    ensures NoLostNotification(Run<Stream<M>, Step<M>>(Next, NewStream(), steps).value)
    ensures Fifo(Run<Stream<M>, Step<M>>(Next, NewStream(), steps).value)
  {
    RunKeepsInv(NewStream(), steps);
  }

  /** Once every notified waiter has run, nobody is left parked beside a message. */
  lemma NobodyWaitsBesideAMessage<M>(s: Stream<M>)
    requires Inv(s) && s.notify.notified == {}
    ensures s.notify.waiting == [] || s.queue == []
  {
  }

  /**
   A call returns nothing exactly when the stream is unregistered and drained, and waits exactly when it
   is empty and still registered.
   */
  lemma WhenACallEnds<M>(s: Stream<M>, w: Waiter)
    requires w !in s.notify.waiting
    ensures PollWait(s, w).1 == Ready(None) <==> s.unregistered && s.queue == []
    ensures PollWait(s, w).1 == Pending <==> !s.unregistered && s.queue == []
    ensures s.queue != [] ==> PollWait(s, w).1 == Ready(Some(s.queue[0]))
  {
  }

  // ---- Who is woken ----

  /** Whether the call is known to the stream: it is parked, or it was notified and not polled since. */
  predicate IsKnown<M>(s: Stream<M>, w: Waiter) {
    w in s.notify.waiting || w in s.notify.notified
  }

  /** A call is parked by its own poll exactly when that answers "pending". */
  lemma PendingMeansParked<M>(s: Stream<M>, w: Waiter)
    ensures w in PollWait(s, w).0.notify.waiting <==> PollWait(s, w).1 == Pending
    ensures PollWait(s, w).1 != Pending ==> w !in PollWait(s, w).0.notify.notified
  {
  }

  /** No step touches a call that it is not about, except that a push, or a cancellation, may notify it. */
  lemma OthersStayKnown<M>(s: Stream<M>, step: Step<M>, w: Waiter)
    requires Inv(s) && step != DoPoll(w) && step != DoCancel(w)
    ensures IsKnown(Next(s, step).value, w) <==> IsKnown(s, w)
    ensures w in s.notify.notified ==> w in Next(s, step).value.notify.notified
  {
    if step.DoCancel? {
      WithoutRemoves(s.notify.waiting, step.w);
    }
  }

  lemma CancelledIsUnknown<M>(s: Stream<M>, w: Waiter)
    requires Inv(s)
    ensures !IsKnown(Cancel(s, w), w)
  {
    WithoutRemoves(s.notify.waiting, w);
  }

  /** By the steps alone: the last poll of the call answered "pending", and the call was not dropped since. */
  ghost predicate StillWaits<M>(steps: seq<Step<M>>, w: Waiter)
    decreases |steps|
  {
    if steps == [] then
      false
    else
      var front, last := steps[..|steps| - 1], steps[|steps| - 1];
      if last == DoPoll(w) then
        var before := Run<Stream<M>, Step<M>>(Next, NewStream(), front);
        before.Some? && PollWait(before.value, w).1 == Pending
      else
        last != DoCancel(w) && StillWaits(front, w)
  }

  /** After every run the stream knows exactly the calls that still wait. */
  lemma {:induction false} WaitingCallsAreKnown<M(!new)>(steps: seq<Step<M>>, w: Waiter)
    requires Run<Stream<M>, Step<M>>(Next, NewStream(), steps).Some?
    ensures IsKnown(Run<Stream<M>, Step<M>>(Next, NewStream(), steps).value, w) <==> StillWaits(steps, w)
    decreases |steps|
  {
    if steps == [] {
      assert !IsKnown(NewStream<M>(), w);
    } else {
      var n := |steps| - 1;
      var before := Run<Stream<M>, Step<M>>(Next, NewStream(), steps[..n]).value;
      RunKeepsInv(NewStream<M>(), steps[..n]);
      WaitingCallsAreKnown(steps[..n], w);
      if steps[n] == DoPoll(w) {
        PendingMeansParked(before, w);
      } else if steps[n] == DoCancel(w) {
        CancelledIsUnknown(before, w);
      } else {
        OthersStayKnown(before, steps[n], w);
      }
    }
  }

  /** A push notifies; so does dropping a call that was notified in vain. */
  predicate Wakes<M>(s: Stream<M>, step: Step<M>) {
    step.DoPush? || (step.DoCancel? && step.w in s.notify.notified)
  }

  /** The call that has been parked longest is notified, and nobody out of turn. */
  lemma NotificationsComeInTurn<M>(s: Stream<M>, step: Step<M>, w: Waiter)
    requires Inv(s) && step != DoPoll(w) && step != DoCancel(w) && w in s.notify.waiting
    ensures w in Next(s, step).value.notify.notified <==> Wakes(s, step) && s.notify.waiting[0] == w
  {
    if step.DoCancel? {
      WithoutRemoves(s.notify.waiting, step.w);
    }
  }

  /** With nobody parked a permit is stored instead, which stays until the next call that parks. */
  lemma PermitsAreStored<M>(s: Stream<M>, step: Step<M>)
    requires Inv(s)
    ensures var parks := step.DoPoll? && step.w !in s.notify.waiting && PollWait(s, step.w).1 == Pending;
            Next(s, step).value.notify.permit <==>
            (Wakes(s, step) && s.notify.waiting == []) || (s.notify.permit && !parks)
  {
  }

  /** What was ever pushed, by the steps alone. */
  function Pushes<M>(steps: seq<Step<M>>): seq<M> {
    if steps == [] then []
    else
      var last := steps[|steps| - 1];
      Pushes(steps[..|steps| - 1]) + (if last.DoPush? then [last.m] else [])
  }

  lemma {:induction false} PushedAreThePushes<M(!new)>(steps: seq<Step<M>>)
    requires Run<Stream<M>, Step<M>>(Next, NewStream(), steps).Some?
    ensures Run<Stream<M>, Step<M>>(Next, NewStream(), steps).value.pushed == Pushes(steps)
    ensures Run<Stream<M>, Step<M>>(Next, NewStream(), steps).value.unregistered <==> DoUnregister in steps
    decreases |steps|
  {
    if steps == [] {
      assert Pushes(steps) == [];
    } else {
      var n := |steps| - 1;
      PushedAreThePushes(steps[..n]);
      assert steps == steps[..n] + [steps[n]];
    }
  }

  /** Polls by the waiters in turn, with what each was told. */
  function PollAll<M>(s: Stream<M>, ws: seq<Waiter>): (Stream<M>, seq<Poll<Option<M>>>)
    decreases |ws|
  {
    if ws == [] then (s, []) else
      var (first, told) := PollWait(s, ws[0]);
      var (last, rest) := PollAll(first, ws[1..]);
      (last, [told] + rest)
  }

  /**
   After unregistration the messages that are left come out in order, one to a call, and every later call
   gets nothing.
   */
  lemma {:induction false} UnregisteredStreamDrains<M>(s: Stream<M>, ws: seq<Waiter>)
    requires s.unregistered
    requires forall w :: w in ws ==> w !in s.notify.waiting
    ensures var (after, told) := PollAll(s, ws);
            && |told| == |ws|
            && (forall j :: 0 <= j < |ws| ==> told[j] == Ready(if j < |s.queue| then Some(s.queue[j]) else None))
            && after.queue == (if |ws| < |s.queue| then s.queue[|ws|..] else [])
            && after.unregistered
    decreases |ws|
  {
    if ws == [] {
      assert PollAll(s, ws) == (s, []);
    } else {
      UnregisteredStreamDrains(PollWait(s, ws[0]).0, ws[1..]);
    }
  }

  // ---- The stream as an object ----

  class AmStreamInner<M> {
    const id: nat
    var queue: seq<M>
    var notify: Notify
    var unregistered: bool
    ghost var pushed: seq<M>
    ghost var returned: seq<M>

    ghost function Abs(): Stream<M>
      reads this
    {
      Stream(queue, notify, unregistered, pushed, returned)
    }

    constructor (id: nat)
      ensures this.id == id && Abs() == NewStream()
    {
      this.id := id;
      queue, notify, unregistered, pushed, returned := [], Notify(false, [], {}), false, [], [];
    }

    method SetUnregistered()
      modifies this
      ensures Abs() == Unregister(old(Abs()))
    {
      unregistered := true;
    }

    method Callback(m: M)
      modifies this
      ensures Abs() == Push(old(Abs()), m)
    {
      queue := queue + [m];
      pushed := pushed + [m];
      notify := NotifyOne(notify);
    }

    method PopMessage() returns (m: Option<M>)
      modifies this
      ensures (Abs(), m) == Pop(old(Abs()))
    {
      if queue == [] {
        m := None;
      } else {
        m := Some(queue[0]);
        returned := returned + [queue[0]];
        queue := queue[1..];
      }
    }

    /**
     One poll of `wait_msg`: a parked waiter stays parked, any other runs the loop until it has a message,
     finds the stream unregistered, or parks. A stored permit costs it one more turn.
     */
    method WaitMsg(w: Waiter) returns (p: Poll<Option<M>>)
      modifies this
      ensures (Abs(), p) == PollWait(old(Abs()), w)
      ensures p == Pending <==> w in notify.waiting
    {
      if w in notify.waiting {
        return Pending;
      }
      notify := notify.(notified := notify.notified - {w});
      while !unregistered
        invariant queue == old(queue) && unregistered == old(unregistered)
        invariant pushed == old(pushed) && returned == old(returned)
        invariant notify.waiting == old(notify.waiting) && notify.notified == old(notify.notified) - {w}
        invariant notify.permit != old(notify.permit) ==> !unregistered && queue == [] && !notify.permit
        decreases notify.permit
      {
        if queue != [] {
          var m := PopMessage();
          return Ready(m);
        }
        if notify.permit {
          notify := notify.(permit := false);
        } else {
          notify := notify.(waiting := notify.waiting + [w]);
          return Pending;
        }
      }
      var m := PopMessage();
      return Ready(m);
    }

    method CancelWait(w: Waiter)
      modifies this
      ensures Abs() == Cancel(old(Abs()), w)
    {
      notify := Forsake(notify, w);
    }
  }
}
