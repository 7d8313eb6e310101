/**
 `Worker::event_poll`: drain the events, arm the descriptor, and sleep until it becomes readable.

 UCX's contract is the environment: arming succeeds only when no event is pending, and an armed
 descriptor becomes readable at the next event. Events come at any time, and other tasks may progress
 or arm the worker as well.
 */
module EventLoop {
  import opened Wrappers
  import opened Runs
  import opened StatusWords

  datatype Pc = Counting | Draining | Arming | Waiting | Clearing | Exited | Panicked

  /** `strong` counts the references to the worker, the loop's own included. */
  datatype State = State(pc: Pc, pending: nat, armed: bool, readable: bool, strong: nat)

  /** What `ucp_worker_arm` answers. */
  datatype ArmAnswer = Armed | Busy | Failed

  function AnswerOf(status: Status): ArmAnswer {
    if status == UCS_OK then Armed else if status == UCS_ERR_BUSY then Busy else Failed
  }

  datatype Step =
    | Events(count: nat)
    | Count
    | Progress(processed: nat, again: bool)
    | Arm(status: Status)
    | Wake
    | Clear
    | OtherProgress(processed: nat)
    | OtherArm(status: Status)
    | AddReference
    | DropReference

  /** The start of the loop: the descriptor may be in any state that the contract allows. */
  predicate IsInit(s: State) {
    s.pc == Counting && s.strong > 0 && (s.armed ==> s.pending == 0)
  }

  /** Any number of events, none included: an armed descriptor reports them and is then no longer armed. */
  function Arrive(s: State, count: nat): State {
    if count == 0 then s
    else s.(pending := s.pending + count, readable := s.readable || s.armed, armed := false)
  }

  function AfterArm(s: State, status: Status): State {
    if status == UCS_OK then s.(armed := true) else s
  }

  /** Where the loop goes after arming: to sleep, around again, or into the panic of `unwrap`. */
  function AfterArmPc(answer: ArmAnswer): Pc {
    match answer
    case Armed => Waiting
    case Busy => Counting
    case Failed => Panicked
  }

  function LetGo(strong: nat): nat {
    if strong == 0 then 0 else strong - 1
  }

  predicate Enabled(s: State, step: Step) {
    match step
    case Events(_) => true
    case Count => s.pc == Counting
    case Progress(n, _) => s.pc == Draining && n <= s.pending
    case Arm(status) => s.pc == Arming && (status == UCS_OK ==> s.pending == 0)
    case Wake => s.pc == Waiting && s.readable
    case Clear => s.pc == Clearing
    case OtherProgress(n) => n <= s.pending
    case OtherArm(status) => status == UCS_OK ==> s.pending == 0
    case AddReference => s.strong > (if s.pc == Exited || s.pc == Panicked then 0 else 1)
    case DropReference => s.strong > (if s.pc == Exited || s.pc == Panicked then 0 else 1)
  }

  function Next(s: State, step: Step): Option<State> {
    if !Enabled(s, step) then None else
      Some(match step
           case Events(count) => Arrive(s, count)
           case Count => if s.strong > 1 then s.(pc := Draining) else s.(pc := Exited, strong := LetGo(s.strong))
           case Progress(n, again) => s.(pending := s.pending - n, pc := if again then Draining else Arming)
           case Arm(status) =>
             var t := AfterArm(s, status).(pc := AfterArmPc(AnswerOf(status)));
             if AnswerOf(status) == Failed then t.(strong := LetGo(t.strong)) else t
           case Wake => s.(pc := Clearing)
           case Clear => s.(pc := Counting, readable := false)
           case OtherProgress(n) => s.(pending := s.pending - n)
           case OtherArm(status) => AfterArm(s, status)
           case AddReference => s.(strong := s.strong + 1)
           case DropReference => s.(strong := s.strong - 1))
  }

  /** The loop never sleeps beside an unprocessed event that the descriptor does not report. */
  predicate NeverSleepsOnEvents(s: State) {
    s.pc == Waiting && s.pending > 0 ==> s.readable
  }

  /** The loop ends only with the last reference in its hands, so nobody is left who could need it. */
  predicate ExitsLast(s: State) {
    s.pc == Exited ==> s.strong == 0
  }

  predicate Inv(s: State) {
    && (s.armed ==> s.pending == 0)
    && (s.pc == Waiting ==> s.armed || s.readable)
    && (s.pc != Exited && s.pc != Panicked ==> s.strong > 0)
    && ExitsLast(s)
  }

  lemma StepKeepsInv(s: State, step: Step)
    requires Inv(s) && Enabled(s, step)
    ensures Inv(Next(s, step).value)
  {
  }

  lemma {:induction false} RunKeepsInv(s: State, steps: seq<Step>)
    requires Inv(s) && Run(Next, s, steps).Some?
    ensures Inv(Run(Next, s, steps).value)
  {
    forall t, l | Inv(t) && Next(t, l).Some? ensures Inv(Next(t, l).value) {
      StepKeepsInv(t, l);
    }
    Preserved(Next, t => Inv(t), s, steps);
  }

  /** Over every interleaving of events with the loop's steps and with other tasks. */
  lemma {:induction false} EveryRunIsSafe(s: State, steps: seq<Step>)
    requires IsInit(s) && Run(Next, s, steps).Some?
    ensures NeverSleepsOnEvents(Run(Next, s, steps).value)
    ensures ExitsLast(Run(Next, s, steps).value)
  {
    RunKeepsInv(s, steps);
  }

  /** Arming failed: it answered neither that it is armed nor that it is busy. */
  predicate ArmFailed(step: Step) {
    step.Arm? && step.status != UCS_OK && step.status != UCS_ERR_BUSY
  }

  predicate FailsToArm(s: State, step: Step) {
    ArmFailed(step)
  }

  /**
   A run ends in the panic exactly if the loop's arming failed in it, and leaves the loop exactly by finding
   that it has the last reference.
   */
  lemma {:induction false} PanicsIffArmingFailed(s: State, steps: seq<Step>)
    requires IsInit(s) && Run(Next, s, steps).Some?
    ensures Run(Next, s, steps).value.pc == Panicked <==> exists k: nat :: HappensAt(Next, s, steps, FailsToArm, k)
    ensures Run(Next, s, steps).value.pc == Exited <==> exists k: nat :: HappensAt(Next, s, steps, CountsLast, k)
  {
    RaisedIffItHappened(Next, t => true, (t: State) => t.pc == Panicked, FailsToArm, s, steps);
    RaisedIffItHappened(Next, t => true, (t: State) => t.pc == Exited, CountsLast, s, steps);
  }

  predicate CountsLast(s: State, step: Step) {
    step == Count && s.strong <= 1
  }

  /** How many events came, and how many were processed. */
  function Came(steps: seq<Step>): nat {
    if steps == [] then 0
    else
      var last := steps[|steps| - 1];
      Came(steps[..|steps| - 1]) + (if last.Events? then last.count else 0)
  }

  function Processed(steps: seq<Step>): nat {
    if steps == [] then 0
    else
      var last := steps[|steps| - 1];
      Processed(steps[..|steps| - 1]) + (if last.Progress? || last.OtherProgress? then last.processed else 0)
  }

  /** No event is lost or processed twice. */
  lemma {:induction false} EventsAreConserved(s: State, steps: seq<Step>)
    requires Run(Next, s, steps).Some?
    ensures s.pending + Came(steps) == Processed(steps) + Run(Next, s, steps).value.pending
    decreases |steps|
  {
    if steps == [] {
      assert Came(steps) == Processed(steps) == 0;
    } else {
      EventsAreConserved(s, steps[..|steps| - 1]);
    }
  }

  // ---- The loop itself ----

  /**
   The environment of one call of UCX: the events that come before it, how many of the pending ones it
   processes at most (all, if 0), and what it answers if it arms.
   */
  datatype Tick = Tick(events: nat, batch: nat, status: Status)

  function FirstTick(script: seq<Tick>): Tick {
    if script == [] then Tick(0, 0, UCS_OK) else script[0]
  }

  function LaterTicks(script: seq<Tick>): seq<Tick> {
    if script == [] then [] else script[1..]
  }

  /** One call of progress: it goes on exactly if something was processed. */
  function Turn(events: nat, processed: nat): seq<Step> {
    [Events(events)] + [Progress(processed, processed != 0)]
  }

  lemma {:induction false} RunOne(s: State, a: Step)
    requires Enabled(s, a)
    ensures Run(Next, s, [a]) == Next(s, a)
  {
    assert [a][..0] == [];
  }

  lemma {:induction false} RunTwo(s: State, a: Step, b: Step)
    requires Enabled(s, a) && Enabled(Next(s, a).value, b)
    ensures Run(Next, s, [a, b]) == Next(Next(s, a).value, b)
  {
    RunOne(s, a);
    assert [a, b][..1] == [a];
  }

  lemma EventsArrive(s: State, count: nat)
    ensures Next(s, Events(count)) == Some(Arrive(s, count))
    ensures Arrive(s, count).pc == s.pc
  {
  }

  lemma ProgressGoesOn(s: State, processed: nat, again: bool)
    requires s.pc == Draining && processed <= s.pending
    ensures Next(s, Progress(processed, again)) ==
            Some(s.(pending := s.pending - processed, pc := if again then Draining else Arming))
  {
  }

  lemma Associates(a: seq<Step>, b: seq<Step>, c: seq<Step>)
    ensures a + b + c == a + (b + c)
  {
  }

  lemma {:induction false} PlayOn(
      s: State, t: State, u: State, front: seq<Step>, back: seq<Step>,
      log1: seq<Step>, log2: seq<Step>, log3: seq<Step>)
    requires Played(s, t, front, log1, log2) && Played(t, u, back, log2, log3)
    ensures Played(s, u, front + back, log1, log3)
  {
    RunConcat(Next, s, front, back);
    CallsConcat(front, back);
    Associates(log1, Calls(front), Calls(back));
  }

  lemma PanicsLater(panic: Option<Error>, front: seq<Step>, back: seq<Step>)
    requires NoneFailed(front) && PanicsAsUcxSaid(panic, back)
    ensures PanicsAsUcxSaid(panic, front + back)
  {
    if panic.Some? {
      assert (front + back)[..|front + back| - 1] == front + back[..|back| - 1];
    }
  }

  lemma {:induction false} TurnIsAllCalls(events: nat, processed: nat)
    ensures Calls(Turn(events, processed)) == Turn(events, processed)
  {
    assert Calls([Events(events)]) == [Events(events)];
    assert Turn(events, processed)[..1] == [Events(events)];
  }

  lemma {:induction false} RunTurn(s: State, events: nat, processed: nat)
    requires s.pc == Draining && processed <= Arrive(s, events).pending
    ensures var t := Arrive(s, events);
            Run(Next, s, Turn(events, processed)) ==
            Some(t.(pending := t.pending - processed, pc := if processed != 0 then Draining else Arming))
  {
    EventsArrive(s, events);
    RunOne(s, Events(events));
    RunSnoc(Next, s, [Events(events)], Progress(processed, processed != 0));
    ProgressGoesOn(Arrive(s, events), processed, processed != 0);
  }

  /** The steps of a run that are UCX's doing, not the loop's. */
  function Calls(steps: seq<Step>): seq<Step> {
    if steps == [] then []
    else
      var last := steps[|steps| - 1];
      Calls(steps[..|steps| - 1]) + (if last == Count || last == Wake || last == Clear then [] else [last])
  }

  predicate NoneFailed(steps: seq<Step>) {
    forall step :: step in steps ==> !ArmFailed(step)
  }

  /** The panic is that of the last step, if it failed to arm; and no other step did. */
  predicate PanicsAsUcxSaid(panic: Option<Error>, steps: seq<Step>) {
    match panic
    case None => NoneFailed(steps)
    case Some(error) =>
      && steps != [] && ArmFailed(steps[|steps| - 1]) && error == Error(steps[|steps| - 1].status)
      && NoneFailed(steps[..|steps| - 1])
  }

  /** A run of the machine in which UCX does what its log has come to say. */
  ghost predicate Played(s: State, t: State, steps: seq<Step>, before: seq<Step>, after: seq<Step>) {
    Run(Next, s, steps) == Some(t) && after == before + Calls(steps)
  }

  lemma {:induction false} CallsConcat(front: seq<Step>, back: seq<Step>)
    ensures Calls(front + back) == Calls(front) + Calls(back)
    decreases |back|
  {
    if back == [] {
      assert front + back == front;
    } else {
      CallsConcat(front, back[..|back| - 1]);
      assert (front + back)[..|front + back| - 1] == front + back[..|back| - 1];
    }
  }

  /** Where a call of progress leads. */
  function AfterTurn(s: State, events: nat, processed: nat): State
    requires processed <= Arrive(s, events).pending
  {
    var t := Arrive(s, events);
    t.(pending := t.pending - processed, pc := if processed != 0 then Draining else Arming)
  }

  function AfterArmCall(s: State, events: nat, status: Status): State {
    var t := AfterArm(Arrive(s, events), status).(pc := AfterArmPc(AnswerOf(status)));
    if AnswerOf(status) == Failed then t.(strong := LetGo(t.strong)) else t
  }

  lemma {:induction false} PlayArm(s: State, events: nat, status: Status, log: seq<Step>)
    requires s.pc == Arming && (status == UCS_OK ==> Arrive(s, events).pending == 0)
    ensures var steps := [Events(events), Arm(status)];
            Played(s, AfterArmCall(s, events, status), steps, log, log + steps)
  {
    var steps := [Events(events), Arm(status)];
    RunTwo(s, Events(events), Arm(status));
    assert steps[..1] == [Events(events)];
    assert Calls([Events(events)]) == [Events(events)];
    assert Calls(steps) == steps;
  }

  lemma {:induction false} PlayCount(s: State, log: seq<Step>)
    requires s.pc == Counting
    ensures Next(s, Count).Some? && Played(s, Next(s, Count).value, [Count], log, log) && NoneFailed([Count])
  {
    RunOne(s, Count);
    assert [Count][..0] == [];
    assert Calls([Count]) == [];
  }

  lemma PlayTurn(s: State, events: nat, processed: nat, log: seq<Step>)
    requires s.pc == Draining && processed <= Arrive(s, events).pending
    ensures Played(s, AfterTurn(s, events, processed), Turn(events, processed), log, log + Turn(events, processed))
    ensures NoneFailed(Turn(events, processed))
  {
    RunTurn(s, events, processed);
    TurnIsAllCalls(events, processed);
  }

  /**
   A worker and its descriptor. `script` is what its environment will do, and then it is quiet; `log` is
   what UCX did.
   */
  class UcxWorker {
    var pending: nat
    var armed: bool
    var readable: bool
    var strong: nat
    var script: seq<Tick>
    ghost var log: seq<Step>

    ghost function At(pc: Pc): State
      reads this
    {
      State(pc, pending, armed, readable, strong)
    }

    constructor (initial: State, script: seq<Tick>)
      ensures At(initial.pc) == initial && this.script == script
    {
      pending, armed, readable, strong := initial.pending, initial.armed, initial.readable, initial.strong;
      this.script, log := script, [];
    }

    /** Whatever comes before the next call. */
    method Elapse() returns (tick: Tick)
      modifies this`pending, this`armed, this`readable, this`script, this`log
      ensures tick == FirstTick(old(script)) && script == LaterTicks(old(script))
      ensures forall pc :: At(pc) == Arrive(old(At(pc)), tick.events)
      ensures log == old(log) + [Events(tick.events)]
    {
      log := log + [Events(FirstTick(script).events)];
      if script == [] {
        return Tick(0, 0, UCS_OK);
      }
      tick := script[0];
      script := script[1..];
      if tick.events > 0 {
        pending, readable, armed := pending + tick.events, readable || armed, false;
      }
    }

    /** `ucp_worker_progress`: some events are processed, unless there are none. */
    method Progress() returns (processed: nat)
      modifies this`pending, this`armed, this`readable, this`script, this`log
      ensures script == LaterTicks(old(script))
      ensures var s := Arrive(old(At(Draining)), FirstTick(old(script)).events);
              && processed <= s.pending
              && At(Draining) == s.(pending := s.pending - processed)
              && (processed == 0 <==> s.pending == 0)
              && log == old(log) + Turn(FirstTick(old(script)).events, processed)
    {
      var tick := Elapse();
      processed := if tick.batch == 0 || pending < tick.batch then pending else tick.batch;
      pending := pending - processed;
      log := log + [Step.Progress(processed, processed != 0)];
    }

    /** `Worker::arm`; UCX does not arm while an event is pending. */
    method TryArm() returns (result: Result<bool, Error>)
      modifies this`pending, this`armed, this`readable, this`script, this`log
      ensures script == LaterTicks(old(script))
      ensures var tick, s := FirstTick(old(script)), Arrive(old(At(Arming)), FirstTick(old(script)).events);
              var status := if tick.status == UCS_OK && s.pending > 0 then UCS_ERR_BUSY else tick.status;
              && At(Arming) == AfterArm(s, status)
              && log == old(log) + [Events(tick.events), Arm(status)]
              && (result == Success(true) <==> status == UCS_OK)
              && (result == Success(false) <==> status == UCS_ERR_BUSY)
              && (result.Failure? ==> result.error == Error(status))
    {
      var tick := Elapse();
      var status := if tick.status == UCS_OK && pending > 0 then UCS_ERR_BUSY else tick.status;
      log := log + [Arm(status)];
      if status == UCS_OK {
        armed := true;
        result := Success(true);
      } else if status == UCS_ERR_BUSY {
        result := Success(false);
      } else {
        result := Failure(Error(status));
      }
    }

    /** `while self.progress() != 0 {}`. */
    method Drain() returns (ghost steps: seq<Step>)
      modifies this`pending, this`armed, this`readable, this`script, this`log
      ensures pending == 0 && |script| <= |old(script)| && (old(script) != [] ==> |script| < |old(script)|)
      ensures old(script) == [] ==> readable == old(readable)
      ensures Played(old(At(Draining)), At(Arming), steps, old(log), log) && NoneFailed(steps)
    {
      ghost var start := At(Draining);
      ghost var events := FirstTick(script).events;
      var processed := Progress();
      steps := Turn(events, processed);
      PlayTurn(start, events, processed, old(log));
      while processed != 0
        invariant processed == 0 ==> pending == 0
        invariant |script| <= |old(script)| && (old(script) != [] ==> |script| < |old(script)|)
        invariant old(script) == [] ==> readable == old(readable)
        invariant Played(start, At(if processed != 0 then Draining else Arming), steps, old(log), log)
        invariant NoneFailed(steps)
        decreases |script|, pending, processed
      {
        ghost var middle, logged := At(Draining), log;
        events := FirstTick(script).events;
        processed := Progress();
        PlayTurn(middle, events, processed, logged);
        PlayOn(start, middle, At(if processed != 0 then Draining else Arming), steps, Turn(events, processed),
               old(log), logged, log);
        steps := steps + Turn(events, processed);
      }
    }

    /** One poll of `polling`: it drains the events and yields, unless the loop holds the last reference. */
    method Polling() returns (p: Poll<()>)
      modifies this`pending, this`armed, this`readable, this`script, this`log
      ensures p == Ready(()) <==> strong <= 1
      ensures if p == Pending then pending == 0 else At(Counting) == old(At(Counting)) && script == old(script)
    {
      if strong > 1 {
        var _ := Drain();
        return Pending;
      }
      return Ready(());
    }
  }

  /** How a poll of `event_poll` ends; the panic is that of `unwrap` on what arming answered. */
  datatype Outcome = Suspended | Returned(result: Result<(), Error>) | Panic(error: Error)

  /** Where the loop is after such a poll. */
  function EndOf(outcome: Outcome): Pc {
    match outcome
    case Suspended => Waiting
    case Returned(_) => Exited
    case Panic(_) => Panicked
  }

  function PanicOf(outcome: Outcome): Option<Error> {
    if outcome.Panic? then Some(outcome.error) else None
  }

  /** The future of `event_poll`, at the start of its loop or in its await. */
  class EventPoll {
    const worker: UcxWorker
    var pc: Pc

    ghost function Abs(): State
      reads this, worker
    {
      worker.At(pc)
    }

    constructor (worker: UcxWorker)
      ensures this.worker == worker && pc == Counting
    {
      this.worker, pc := worker, Counting;
    }

    /** The loop's reference goes with the future. */
    method Finish(end: Pc)
      modifies this`pc, worker`strong
      ensures Abs() == old(Abs()).(pc := end, strong := LetGo(old(worker.strong)))
    {
      pc := end;
      worker.strong := if worker.strong == 0 then 0 else worker.strong - 1;
    }

    /** `arm().unwrap()`, and then to the await, around again, or into the panic. */
    method ArmOnce() returns (panic: Option<Error>, ghost steps: seq<Step>)
      requires pc == Arming && worker.pending == 0
      modifies this, worker
      ensures Played(old(Abs()), Abs(), steps, old(worker.log), worker.log) && PanicsAsUcxSaid(panic, steps)
      ensures pc == Waiting || pc == Counting || pc == Panicked
      ensures panic.Some? <==> pc == Panicked
      ensures var status := FirstTick(old(worker.script)).status;
              panic == if status == UCS_OK || status == UCS_ERR_BUSY then None else Some(Error(status))
      ensures pc != Panicked ==> worker.strong == old(worker.strong)
      ensures worker.script == LaterTicks(old(worker.script))
      ensures old(worker.script) == [] ==> pc == Waiting && worker.readable == old(worker.readable)
    {
      ghost var tick := FirstTick(worker.script);
      ghost var start := Abs();
      var armed := worker.TryArm();
      ghost var t := Arrive(start, tick.events);
      ghost var status := if tick.status == UCS_OK && t.pending > 0 then UCS_ERR_BUSY else tick.status;
      steps := [Events(tick.events), Arm(status)];
      PlayArm(start, tick.events, status, old(worker.log));
      panic := None;
      match armed
      case Success(true) => pc := Waiting;
      case Success(false) => pc := Counting;
      case Failure(error) =>
        panic := Some(error);
        Finish(Panicked);
    }

    /** From the await: a readable descriptor is cleared, and the loop goes around again. */
    method Resume() returns (ghost steps: seq<Step>)
      requires pc == Waiting
      modifies this, worker`readable
      ensures Played(old(Abs()), Abs(), steps, worker.log, worker.log) && NoneFailed(steps)
      ensures if old(worker.readable) then pc == Counting && !worker.readable else Abs() == old(Abs())
    {
      steps := [];
      if worker.readable {
        steps := [Wake, Clear];
        RunTwo(Abs(), Wake, Clear);
        assert Calls(steps[..1]) == [];
        pc, worker.readable := Counting, false;
      }
    }

    /** A turn of the loop, up to and past the await if that does not suspend it. */
    method LoopTurn() returns (panic: Option<Error>, ghost steps: seq<Step>)
      requires pc == Counting && worker.strong > 1
      modifies this, worker
      ensures Played(old(Abs()), Abs(), steps, old(worker.log), worker.log) && PanicsAsUcxSaid(panic, steps)
      ensures pc == Counting || (pc == Waiting && !worker.readable) || pc == Panicked
      ensures panic.Some? <==> pc == Panicked
      ensures pc != Panicked ==> worker.strong == old(worker.strong)
      ensures pc == Counting ==>
                |worker.script| < |old(worker.script)| ||
                (worker.script == old(worker.script) == [] && old(worker.readable) && !worker.readable)
    {
      ghost var start := Abs();
      steps := [Count];
      PlayCount(start, worker.log);
      pc := Draining;
      ghost var draining := Abs();
      ghost var more := worker.Drain();
      pc := Arming;
      ghost var arming, logged := Abs(), worker.log;
      PlayOn(start, draining, arming, steps, more, old(worker.log), old(worker.log), logged);
      steps := steps + more;
      panic, more := ArmOnce();
      PlayOn(start, arming, Abs(), steps, more, old(worker.log), logged, worker.log);
      PanicsLater(panic, steps, more);
      steps := steps + more;
      if pc == Waiting {
        ghost var waiting := Abs();
        more := Resume();
        PlayOn(start, waiting, Abs(), steps, more, old(worker.log), worker.log, worker.log);
        steps := steps + more;
      }
    }

    /**
     One poll, from the start or from the await, is a run of the machine in which UCX does what it did. It
     suspends only with nothing pending and the descriptor armed and not readable, returns exactly with the
     last reference, and panics exactly if arming failed, with that error.
     */
    method Poll() returns (outcome: Outcome, ghost steps: seq<Step>)
      requires (pc == Counting || pc == Waiting) && Inv(Abs())
      modifies this, worker
      ensures Played(old(Abs()), Abs(), steps, old(worker.log), worker.log) && Inv(Abs())
      ensures PanicsAsUcxSaid(PanicOf(outcome), steps)
      ensures pc == EndOf(outcome)
      ensures outcome == Suspended ==> worker.pending == 0 && worker.armed && !worker.readable
      ensures outcome.Returned? ==>
                outcome.result == Success(()) && old(worker.strong) == 1 && worker.strong == 0
      ensures old(worker.strong) == 1 && (old(pc) == Counting || old(worker.readable)) ==> outcome.Returned?
      ensures old(pc) == Waiting && !old(worker.readable) ==>
                outcome == Suspended && Abs() == old(Abs()) && worker.script == old(worker.script)
    {
      ghost var start := Abs();
      steps := [];
      assert Calls(steps) == [];
      if pc == Waiting {
        steps := Resume();
      }
      while pc == Counting && worker.strong > 1
        invariant pc == Counting || (pc == Waiting && !worker.readable)
        invariant Played(start, Abs(), steps, old(worker.log), worker.log) && NoneFailed(steps)
        invariant worker.strong == old(worker.strong)
        invariant worker.strong == 1 && (old(pc) == Counting || old(worker.readable)) ==> pc == Counting
        invariant old(pc) == Waiting && !old(worker.readable) ==>
                    pc == Waiting && Abs() == start && worker.script == old(worker.script)
        decreases pc == Counting, |worker.script|, worker.readable
      {
        ghost var middle, logged := Abs(), worker.log;
        var panic, more := LoopTurn();
        PlayOn(start, middle, Abs(), steps, more, old(worker.log), logged, worker.log);
        PanicsLater(panic, steps, more);
        steps := steps + more;
        if panic.Some? {
          RunKeepsInv(start, steps);
          return Panic(panic.value), steps;
        }
      }
      RunKeepsInv(start, steps);
      if pc == Waiting {
        return Suspended, steps;
      }
      ghost var last := Abs();
      Finish(Exited);
      PlayCount(last, worker.log);
      PlayOn(start, last, Abs(), steps, [Count], old(worker.log), worker.log, worker.log);
      steps := steps + [Count];
      RunKeepsInv(start, steps);
      outcome := Returned(Success(()));
    }
  }

  /** `event_poll` up to its first await; `efd` is what UCX answers when asked for the descriptor. */
  method Start(worker: UcxWorker, efd: Status) returns (outcome: Outcome, ghost steps: seq<Step>)
    requires Inv(worker.At(Counting))
    modifies worker
    ensures efd != UCS_OK ==>
              && outcome == Returned(Failure(Error(efd)))
              && worker.At(Counting) == old(worker.At(Counting)).(strong := old(worker.strong) - 1)
    ensures efd == UCS_OK ==>
              && Played(old(worker.At(Counting)), worker.At(EndOf(outcome)), steps, old(worker.log), worker.log)
              && PanicsAsUcxSaid(PanicOf(outcome), steps)
              && (outcome.Returned? ==> outcome.result == Success(()))
  {
    var fd := FromStatus(efd);
    if fd.Failure? {
      worker.strong := worker.strong - 1;
      return Returned(fd), [];
    }
    var loop := new EventPoll(worker);
    outcome, steps := loop.Poll();
  }
}
