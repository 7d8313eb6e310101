/**
 The life of one endpoint: its clones share a record with a closed flag, a status and the weak
 reference that UCX holds for the error handler. Clones, drops, closes that yield, gated operations
 and error-handler calls interleave on it; a close or a drop is split where UCX may run the handler.
 */
module Endpoint {
  import opened Wrappers
  import opened Runs
  import opened StatusWords

  type Close = nat
  type Dropping = nat

  /** `EndpointInner`. `weak` counts the weak references lent to UCX, `released` those given back. */
  datatype Inner = Inner(closed: bool, status: Status, weak: nat, released: nat)

  /** `EndpointInner::new` with the reference that `create` lends to UCX. */
  function NewInner(): Inner {
    Inner(false, UCS_OK, 1, 0)
  }

  /** `set_status` never stores "OK". */
  function SetStatus(inner: Inner, status: Status): Inner {
    if status == UCS_OK then inner else inner.(status := status)
  }

  /** `EndpointInner::closed`: the first caller, and only the first, takes UCX's weak reference back. */
  function MarkClosed(inner: Inner): Inner {
    if inner.closed then inner
    else
      SetStatus(
        inner.(closed := true,
               weak := if inner.weak == 0 then 0 else inner.weak - 1,
               released := inner.released + 1),
        UCS_ERR_CONNECTION_RESET)
  }

  /** A `close` after UCX accepted it: it is about to mark the endpoint, or it polls a request. */
  datatype Closing = Marking | Polling

  /**
   What an error-handler call meets: a live record, none (it would close by force), or a reference that
   was taken back.
   */
  datatype Upgrade = Live | Unowned | Dangling

  /**
   `handles` counts the endpoints, those being dropped included, each a strong reference; a drop under
   way remembers whether it found the endpoint open. The rest is history. `abandoned` counts the closes
   that UCX accepted and that were then cancelled or ended in an error, `ended` is UCX's view: it accepted
   a close. `late` is set by a call to UCX after that, `misuse` by one on a handle already marked closed.
   */
  datatype State = State(
    inner: Inner,
    handles: nat,
    closings: map<Close, Closing>,
    droppings: map<Dropping, bool>,
    clones: nat,
    drops: nat,
    abandoned: nat,
    ended: bool,
    late: bool,
    misuse: bool)

  datatype Step =
    | Clone
    | StartClose(c: Close, force: bool, word: Word)
    | PollClose(c: Close, status: Status)
    | FinishClose(c: Close)
    | CancelClose(c: Close)
    | StartDrop(d: Dropping)
    | FinishDrop(d: Dropping)
    | Operate
    | ErrorHandler(status: Status)

  /** After a successful `create`. */
  function Created(): State {
    State(NewInner(), 1, map[], map[], 0, 0, 0, false, false, false)
  }

  /** A call to UCX with the handle. */
  function UseHandle(s: State): State {
    s.(misuse := s.misuse || s.inner.closed, late := s.late || s.ended)
  }

  /** What `close` returns without asking UCX, if it does. */
  function RefuseClose(inner: Inner, force: bool): Option<Result<(), Error>> {
    if force && inner.closed then Some(Success(()))
    else if !force && FromStatus(inner.status).Failure? then Some(FromStatus(inner.status))
    else None
  }

  /** `close` up to UCX's answer. An error word ends it, and leaves the endpoint open. */
  function BeginClose(s: State, c: Close, force: bool, word: Word): State {
    if RefuseClose(s.inner, force).Some? then s
    else
      var issued := UseHandle(s);
      if IsNull(word) then issued.(closings := issued.closings[c := Marking], ended := true)
      else if IsPtr(word) then issued.(closings := issued.closings[c := Polling], ended := true)
      else issued
  }

  /** A turn of the loop in `close`: a request that ended well leads to the mark, one that failed ends the call. */
  function TurnClose(s: State, c: Close, status: Status): State {
    if status == UCS_INPROGRESS then s
    else if status == UCS_OK then s.(closings := s.closings[c := Marking])
    else Abandon(s, c)
  }

  /** A close that UCX accepted ends without the mark. */
  function Abandon(s: State, c: Close): State {
    s.(closings := s.closings - {c}, abandoned := s.abandoned + 1)
  }

  /** `Drop` up to UCX's answer, which is ignored: the forced close counts as accepted. */
  function BeginDrop(s: State, d: Dropping): State {
    var issued := if s.inner.closed then s else UseHandle(s).(ended := true);
    issued.(droppings := issued.droppings[d := !s.inner.closed])
  }

  /** The rest of `Drop`: the mark, if the endpoint was open, and then the strong reference goes. */
  function EndDrop(s: State, d: Dropping): State
    requires d in s.droppings
  {
    s.(inner := if s.droppings[d] then MarkClosed(s.inner) else s.inner,
       droppings := s.droppings - {d},
       handles := if s.handles == 0 then 0 else s.handles - 1,
       drops := s.drops + 1)
  }

  /** `get_handle` and the operation it gates. */
  function OperateIfOpen(s: State): State {
    if FromStatus(s.inner.status).Failure? then s else UseHandle(s)
  }

  /** Upgrading the weak reference that UCX passes to the handler. */
  function TryUpgrade(s: State): Upgrade {
    if s.inner.weak == 0 then Dangling
    else if s.handles == 0 then Unowned
    else Live
  }

  /** The error handler. The live branch keeps the weak reference; the other gives it back after a forced close. */
  function HandleError(s: State, status: Status): State {
    match TryUpgrade(s)
    case Live => s.(inner := SetStatus(s.inner, status))
    case Unowned =>
      UseHandle(s.(inner := s.inner.(weak := s.inner.weak - 1, released := s.inner.released + 1)))
    case Dangling => s.(misuse := true)
  }

  /** A pending close borrows an endpoint, so the last one cannot be dropped under it. */
  predicate MayDrop(s: State) {
    s.handles > |s.droppings| + (if s.closings == map[] then 0 else 1)
  }

  predicate Enabled(s: State, step: Step) {
    match step
    case Clone => s.handles > |s.droppings|
    case StartClose(c, _, _) => s.handles > |s.droppings| && c !in s.closings
    case PollClose(c, _) => c in s.closings && s.closings[c] == Polling
    case FinishClose(c) => c in s.closings && s.closings[c] == Marking
    case CancelClose(c) => c in s.closings && s.closings[c] == Polling
    case StartDrop(d) => MayDrop(s) && d !in s.droppings
    case FinishDrop(d) => d in s.droppings
    case Operate => s.handles > |s.droppings|
    case ErrorHandler(_) => !s.inner.closed
  }

  function Next(s: State, step: Step): Option<State> {
    if !Enabled(s, step) then None else
      Some(match step
           case Clone => s.(handles := s.handles + 1, clones := s.clones + 1)
           case StartClose(c, force, word) => BeginClose(s, c, force, word)
           case PollClose(c, status) => TurnClose(s, c, status)
           case FinishClose(c) => s.(inner := MarkClosed(s.inner), closings := s.closings - {c})
           case CancelClose(c) => Abandon(s, c)
           case StartDrop(d) => BeginDrop(s, d)
           case FinishDrop(d) => EndDrop(s, d)
           case Operate => OperateIfOpen(s)
           case ErrorHandler(status) => HandleError(s, status))
  }

  // ---- What holds after every step ----

  /** UCX's reference is outstanding exactly while the endpoint is open, and is given back exactly once. */
  ghost predicate WeakReferenceOk(inner: Inner) {
    && inner.weak == (if inner.closed then 0 else 1)
    && inner.released == (if inner.closed then 1 else 0)
  }

  /** Closed endpoints report a reset connection, whatever the error handler had reported before. */
  ghost predicate StatusOk(inner: Inner) {
    inner.closed ==> inner.status == UCS_ERR_CONNECTION_RESET
  }

  /** An open endpoint was never dropped, not even one of its clones. */
  ghost predicate OwnersOk(s: State) {
    && s.handles + s.drops == 1 + s.clones
    && |s.droppings| <= s.handles
    && (s.closings != map[] ==> s.handles > |s.droppings|)
    && (!s.inner.closed ==> s.drops == 0 && forall d :: d in s.droppings ==> s.droppings[d])
  }

  /** A close or a drop is under way, or a close that UCX accepted came to nothing. */
  predicate ClosedByHalf(s: State) {
    s.closings != map[] || s.droppings != map[] || s.abandoned > 0
  }

  ghost predicate EndedOk(s: State) {
    s.ended <==> s.inner.closed || ClosedByHalf(s)
  }

  ghost predicate Inv(s: State) {
    !s.misuse && WeakReferenceOk(s.inner) && StatusOk(s.inner) && OwnersOk(s) && EndedOk(s)
  }

  lemma MarkKeepsInner(inner: Inner)
    requires WeakReferenceOk(inner) && StatusOk(inner)
    ensures WeakReferenceOk(MarkClosed(inner)) && StatusOk(MarkClosed(inner))
    ensures MarkClosed(inner).closed
  {
  }

  lemma BeginDropKeepsInv(s: State, d: Dropping)
    requires Inv(s) && Enabled(s, StartDrop(d))
    ensures Inv(BeginDrop(s, d))
  {
    assert |s.droppings[d := !s.inner.closed]| == |s.droppings| + 1;
  }

  lemma EndDropKeepsInv(s: State, d: Dropping)
    requires Inv(s) && d in s.droppings
    ensures Inv(EndDrop(s, d))
  {
    assert s.droppings.Keys == (s.droppings - {d}).Keys + {d};
    assert |s.droppings - {d}| == |s.droppings| - 1;
    MarkKeepsInner(s.inner);
  }

  lemma StepKeepsInv(s: State, step: Step)
    requires Inv(s) && Enabled(s, step)
    ensures Inv(Next(s, step).value)
  {
    match step
    case StartDrop(d) => BeginDropKeepsInv(s, d);
    case FinishDrop(d) => EndDropKeepsInv(s, d);
    case _ =>
  }

  /** A state and a later one: closing and failing are for good. */
  ghost predicate Latched(s: State, t: State) {
    && (s.inner.closed ==> t.inner == s.inner)
    && (s.inner.status != UCS_OK ==> t.inner.status != UCS_OK)
    && s.drops <= t.drops
  }

  lemma StepLatches(s: State, step: Step)
    requires Inv(s) && Enabled(s, step)
    ensures Latched(s, Next(s, step).value)
  {
  }

  lemma {:induction false} RunKeepsInv(s: State, steps: seq<Step>)
    requires Inv(s) && Run(Next, s, steps).Some?
    ensures Inv(Run(Next, s, steps).value) && Latched(s, Run(Next, s, steps).value)
  {
    forall t, l | Inv(t) && Latched(s, t) && Next(t, l).Some?
      ensures Inv(Next(t, l).value) && Latched(s, Next(t, l).value)
    {
      StepKeepsInv(t, l);
      StepLatches(t, l);
    }
    Preserved(Next, t => Inv(t) && Latched(s, t), s, steps);
  }

  // ---- Main results ----

  ghost predicate Safe(s: State) {
    && !s.misuse
    && (s.inner.weak == 1 <==> !s.inner.closed) && s.inner.weak + s.inner.released == 1
    && (s.inner.closed ==> s.inner.status == UCS_ERR_CONNECTION_RESET)
    && (!s.inner.closed ==> s.handles >= 1 && s.drops == 0)
  }

  /**
   Under every schedule of clones, closes, drops and error-handler calls: no UCX call uses a handle marked
   closed, UCX's weak reference is outstanding exactly while the endpoint is open and is given back
   exactly once, closed endpoints report an error, and open ones have an owner.
   */
  lemma {:induction false} EveryRunIsSafe(steps: seq<Step>)
    requires Run(Next, Created(), steps).Some?
    ensures Safe(Run(Next, Created(), steps).value)
  {
    RunKeepsInv(Created(), steps);
  }

  /** Once closed the record never changes again, and an error status never turns back to "OK". */
  lemma {:induction false} ClosingIsForGood(front: seq<Step>, back: seq<Step>)
    requires Run(Next, Created(), front).Some? && Run(Next, Created(), front + back).Some?
    ensures Latched(Run(Next, Created(), front).value, Run(Next, Created(), front + back).value)
  {
    RunKeepsInv(Created(), front);
    RunConcat(Next, Created(), front, back);
    RunKeepsInv(Run(Next, Created(), front).value, back);
  }

  // ---- What the error handler reports ----

  /** The status that the error handler reported last, by the steps alone; it never reports "OK". */
  function LastReported(steps: seq<Step>): Status {
    if steps == [] then UCS_OK
    else
      var last := steps[|steps| - 1];
      if last.ErrorHandler? && last.status != UCS_OK then last.status else LastReported(steps[..|steps| - 1])
  }

  lemma StepReports(s: State, step: Step)
    requires Inv(s) && Enabled(s, step)
    ensures var t := Next(s, step).value;
            !t.inner.closed ==>
              t.inner.status == if step.ErrorHandler? && step.status != UCS_OK then step.status else s.inner.status
    ensures Next(s, step).value.inner.closed && !s.inner.closed ==>
              Next(s, step).value.inner.status == UCS_ERR_CONNECTION_RESET
  {
  }

  /** An open endpoint has the status that was reported last, and a closed one was reset. */
  lemma {:induction false} StatusIsTheLastReported(steps: seq<Step>)
    requires Run(Next, Created(), steps).Some?
    ensures var inner := Run(Next, Created(), steps).value.inner;
            inner.status == if inner.closed then UCS_ERR_CONNECTION_RESET else LastReported(steps)
    decreases |steps|
  {
    if steps == [] {
      assert LastReported(steps) == UCS_OK;
    } else {
      var n := |steps| - 1;
      var s := Run(Next, Created(), steps[..n]).value;
      RunKeepsInv(Created(), steps[..n]);
      StatusIsTheLastReported(steps[..n]);
      StepReports(s, steps[n]);
      StepLatches(s, steps[n]);
    }
  }

  // ---- What marks an endpoint ----

  /** Whether the step makes a call to UCX with the handle. */
  predicate Issues(s: State, step: Step) {
    match step
    case StartClose(_, force, _) => if force then !s.inner.closed else s.inner.status == UCS_OK
    case StartDrop(_) => !s.inner.closed
    case Operate => s.inner.status == UCS_OK
    case _ => false
  }

  /**
   A gentle close is refused exactly on an endpoint with an error status, with that error; a forced one
   exactly on a closed endpoint, with success. Only then is UCX not asked.
   */
  lemma WhenACloseIsRefused(s: State, c: Close, force: bool, word: Word)
    ensures RefuseClose(s.inner, force) == None <==> Issues(s, StartClose(c, force, word))
    ensures !force && s.inner.status != UCS_OK ==>
              RefuseClose(s.inner, force) == Some(Failure(Error(s.inner.status)))
    ensures force && s.inner.closed ==> RefuseClose(s.inner, force) == Some(Success(()))
    ensures RefuseClose(s.inner, force).Some? ==> BeginClose(s, c, force, word) == s
  {
  }

  /** No call is made to UCX on an endpoint that is marked closed, whatever the step. */
  lemma ClosedEndpointsIssueNothing(s: State, step: Step)
    requires Inv(s) && s.inner.closed
    ensures !Issues(s, step)
  {
  }

  predicate Finishes(s: State, step: Step) {
    step.FinishClose? || step.FinishDrop?
  }

  lemma {:induction false} ClosedIffFinished(steps: seq<Step>)
    requires Run(Next, Created(), steps).Some?
    ensures Run(Next, Created(), steps).value.inner.closed <==>
            exists k: nat :: HappensAt(Next, Created(), steps, Finishes, k)
  {
    forall t, l | Inv(t) && Next(t, l).Some?
      ensures Inv(Next(t, l).value)
      ensures Next(t, l).value.inner.closed <==> t.inner.closed || Finishes(t, l)
    {
      StepKeepsInv(t, l);
      StepLatches(t, l);
    }
    RaisedIffItHappened(Next, t => Inv(t), (t: State) => t.inner.closed, Finishes, Created(), steps);
  }

  /** UCX completes the close: a null answer to a call that was not refused, or a request that ended with "OK". */
  predicate Completes(s: State, step: Step, c: Close) {
    || (step.StartClose? && step.c == c && IsNull(step.word) && Issues(s, step))
    || step == PollClose(c, UCS_OK)
  }

  /** Step `j` of a run completes the close, and nothing has finished it since. */
  predicate CompletedAt(steps: seq<Step>, c: Close, j: nat) {
    && j < |steps|
    && var s := Run(Next, Created(), steps[..j]);
       s.Some? && Completes(s.value, steps[j], c) && FinishClose(c) !in steps[j + 1..]
  }

  predicate IsMarking(s: State, c: Close) {
    c in s.closings && s.closings[c] == Marking
  }

  lemma StepMarking(s: State, step: Step, c: Close)
    requires Enabled(s, step)
    ensures IsMarking(Next(s, step).value, c) <==>
            Completes(s, step, c) || (IsMarking(s, c) && step != FinishClose(c))
  {
  }

  predicate IsPolling(s: State, c: Close) {
    c in s.closings && s.closings[c] == Polling
  }

  /**
   A close polls from the moment that UCX answers it with a request, until the request has ended or the
   close is dropped.
   */
  lemma StepPolling(s: State, step: Step, c: Close)
    requires Enabled(s, step)
    ensures IsPolling(Next(s, step).value, c) <==>
            || (step.StartClose? && step.c == c && IsPtr(step.word) && Issues(s, step))
            || (IsPolling(s, c) && step != CancelClose(c) &&
                !(step.PollClose? && step.c == c && step.status != UCS_INPROGRESS))
  {
    if step.StartClose? {
      ExactlyOneKind(step.word);
    }
  }

  lemma EarlierCompletion(steps: seq<Step>, c: Close, j: nat)
    requires j + 1 < |steps|
    ensures var n := |steps| - 1;
            CompletedAt(steps, c, j) <==> CompletedAt(steps[..n], c, j) && steps[n] != FinishClose(c)
  {
    var n := |steps| - 1;
    assert steps[..n][..j] == steps[..j];
    assert steps[j + 1..] == steps[..n][j + 1..] + [steps[n]];
  }

  lemma LastCompletion(steps: seq<Step>, c: Close)
    requires steps != [] && Run(Next, Created(), steps[..|steps| - 1]).Some?
    ensures var n := |steps| - 1;
            CompletedAt(steps, c, n) <==> Completes(Run(Next, Created(), steps[..n]).value, steps[n], c)
  {
    assert steps[|steps|..] == [];
  }

  /** A completed close that has not finished was completed by the last step or is left from before. */
  lemma CompletionsGrow(steps: seq<Step>, c: Close)
    requires steps != [] && Run(Next, Created(), steps[..|steps| - 1]).Some?
    ensures var n := |steps| - 1;
            var before := exists j: nat :: CompletedAt(steps[..n], c, j);
            (exists j: nat :: CompletedAt(steps, c, j)) <==>
            Completes(Run(Next, Created(), steps[..n]).value, steps[n], c) || (before && steps[n] != FinishClose(c))
  {
    var n := |steps| - 1;
    LastCompletion(steps, c);
    forall j: nat | j < n
      ensures CompletedAt(steps, c, j) <==> CompletedAt(steps[..n], c, j) && steps[n] != FinishClose(c)
    {
      EarlierCompletion(steps, c, j);
    }
  }

  /** A close is about to mark the endpoint exactly if UCX completed it and it has not finished since. */
  lemma {:induction false} MarkingIffCompleted(steps: seq<Step>, c: Close)
    requires Run(Next, Created(), steps).Some?
    ensures IsMarking(Run(Next, Created(), steps).value, c) <==> exists j: nat :: CompletedAt(steps, c, j)
    decreases |steps|
  {
    if steps == [] {
      assert !IsMarking(Created(), c);
    } else {
      var n := |steps| - 1;
      MarkingIffCompleted(steps[..n], c);
      StepMarking(Run(Next, Created(), steps[..n]).value, steps[n], c);
      CompletionsGrow(steps, c);
    }
  }

  /** Step `k` finishes a drop, or a close that UCX completed before and that did not finish in between. */
  ghost predicate MarksAt(steps: seq<Step>, k: nat) {
    && k < |steps|
    && (steps[k].FinishDrop? ||
        (steps[k].FinishClose? && exists j: nat :: CompletedAt(steps[..k], steps[k].c, j)))
  }

  /**
   A run leaves the endpoint closed exactly if it finished a drop, or finished a close to which UCX had
   answered null or whose request had ended with "OK"; refused, failed and cancelled closes never do.
   */
  lemma {:induction false} ClosedIffDroppedOrClosedWell(steps: seq<Step>)
    requires Run(Next, Created(), steps).Some?
    ensures Run(Next, Created(), steps).value.inner.closed <==> exists k: nat :: MarksAt(steps, k)
  {
    ClosedIffFinished(steps);
    forall k: nat | k < |steps| ensures MarksAt(steps, k) <==> HappensAt(Next, Created(), steps, Finishes, k) {
      RunPrefix(Next, Created(), steps, k);
      RunPrefix(Next, Created(), steps, k + 1);
      assert steps[..k + 1][..k] == steps[..k];
      assert Enabled(Run(Next, Created(), steps[..k]).value, steps[k]);
      if steps[k].FinishClose? {
        MarkingIffCompleted(steps[..k], steps[k].c);
      }
    }
  }

  // ---- UCX's view ----

  /** Such a call on an endpoint that is not marked closed, though UCX may be done with it. */
  predicate IssuesLate(s: State, step: Step) {
    Issues(s, step) && !s.inner.closed && ClosedByHalf(s)
  }

  /**
   UCX has accepted a close exactly if the endpoint is marked closed or is closed by half, and a run calls
   UCX with the handle after that exactly if one of its steps does so while the endpoint is closed by half:
   never once it is marked, but a failed or cancelled close leaves it open.
   */
  lemma {:induction false} WhenCallsComeLate(steps: seq<Step>)
    requires Run(Next, Created(), steps).Some?
    ensures var s := Run(Next, Created(), steps).value;
            && (s.ended <==> s.inner.closed || ClosedByHalf(s))
            && (s.late <==> exists k: nat :: HappensAt(Next, Created(), steps, IssuesLate, k))
  {
    forall t, l | Inv(t) && Next(t, l).Some?
      ensures Inv(Next(t, l).value)
      ensures Next(t, l).value.late <==> t.late || IssuesLate(t, l)
    {
      StepKeepsInv(t, l);
    }
    RunKeepsInv(Created(), steps);
    RaisedIffItHappened(Next, t => Inv(t), (t: State) => t.late, IssuesLate, Created(), steps);
  }

  /** Such runs exist: an operation while a close is polled, and a second close after one that failed. */
  lemma {:induction false} CallsDoComeLate(request: Word, status: Status)
    requires IsPtr(request) && status != UCS_OK && status != UCS_INPROGRESS
    ensures var s := Run(Next, Created(), [StartClose(0, false, request)] + [Operate]);
            s.Some? && s.value.late
    ensures var s := Run(
              Next, Created(),
              [StartClose(0, false, request)] + [PollClose(0, status)] + [StartClose(1, false, request)]);
            s.Some? && s.value.late && s.value.abandoned == 1
  {
    var first := StartClose(0, false, request);
    assert [first][..0] == [];
    assert Run(Next, Created(), []) == Some(Created());
    assert Run(Next, Created(), [first]) == Next(Created(), first);
    RunSnoc(Next, Created(), [first], Operate);
    RunSnoc(Next, Created(), [first], PollClose(0, status));
    RunSnoc(Next, Created(), [first] + [PollClose(0, status)], StartClose(1, false, request));
  }

  /** How many clones were made and how many drops finished. */
  function Clones(steps: seq<Step>): nat {
    if steps == [] then 0
    else Clones(steps[..|steps| - 1]) + (if steps[|steps| - 1].Clone? then 1 else 0)
  }

  function Drops(steps: seq<Step>): nat {
    if steps == [] then 0
    else Drops(steps[..|steps| - 1]) + (if steps[|steps| - 1].FinishDrop? then 1 else 0)
  }

  /** There are as many endpoints as were made and not dropped. */
  lemma {:induction false} EndpointsAreCounted(steps: seq<Step>)
    requires Run(Next, Created(), steps).Some?
    ensures Run(Next, Created(), steps).value.handles == 1 + Clones(steps) - Drops(steps)
    decreases |steps|
  {
    if steps == [] {
      assert Clones(steps) == Drops(steps) == 0;
    } else {
      var n := |steps| - 1;
      RunKeepsInv(Created(), steps[..n]);
      EndpointsAreCounted(steps[..n]);
      StepCounts(Run(Next, Created(), steps[..n]).value, steps[n]);
    }
  }

  lemma StepCounts(s: State, step: Step)
    requires Inv(s) && Enabled(s, step)
    ensures Next(s, step).value.handles ==
            s.handles + (if step.Clone? then 1 else if step.FinishDrop? then -1 else 0)
  {
    if step.FinishDrop? {
      assert |s.droppings.Keys| > 0;
    }
  }

  /**
   The error handler finds a live record exactly if the endpoint was not marked closed, and otherwise a
   reference already taken back.
   */
  lemma HandlerIsSafeIffOpen(s: State)
    requires Inv(s)
    ensures TryUpgrade(s) == Live <==> !s.inner.closed
    ensures TryUpgrade(s) == Dangling <==> s.inner.closed
  {
  }

  /** The last endpoint going away leaves nothing behind: the record is closed and UCX holds no reference to it. */
  lemma LastDropFreesTheRecord(s: State)
    requires Inv(s) && s.handles == 0
    ensures s.inner.closed && s.inner.weak == 0
  {
  }

  /** Once closed, a gentle close fails with a reset connection, a forced one succeeds, and neither asks UCX. */
  lemma ClosingAgain(s: State, c: Close, word: Word)
    requires Inv(s) && s.inner.closed
    ensures RefuseClose(s.inner, true) == Some(Success(()))
    ensures RefuseClose(s.inner, false) == Some(Failure(Error(UCS_ERR_CONNECTION_RESET)))
    ensures BeginClose(s, c, true, word) == s && BeginClose(s, c, false, word) == s
    ensures OperateIfOpen(s) == s
  {
  }
}
