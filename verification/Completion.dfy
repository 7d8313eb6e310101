/**
 Requests, the futures that await them and the callbacks that wake them, in micro-steps.

 A slot is the memory UCX gives a request. The crate keeps one waker in it, written when the memory
 is first used and not again when UCX recycles the slot, so a new request may find a stale waker.
 A future is either a `RequestHandle`, whose poll checks, registers its waker and checks again, or
 the loop inside `Endpoint::close`, which checks and yields. Between any two of these micro-steps
 UCX may publish a final status or complete the request, and other futures may move.
 */
module Completion {
  import opened Wrappers
  import opened Runs
  import opened StatusWords

  type SlotId = nat
  type Waker = nat

  /** A request, numbered in the order of issue, and with it the one future that awaits it. */
  type Req = nat

  /** How far UCX is with a request: its status becomes visible first, and its callback, if it has one, runs later. */
  datatype Phase = InFlight | Published | Finished

  /** `callback` says whether the request was issued with the completion callback that wakes the slot's waker. */
  datatype Slot = Slot(req: Req, phase: Phase, status: Status, waker: Option<Waker>, freed: bool, callback: bool)

  datatype Kind = Handle | CloseLoop

  /** Where a future is. `Parked` means its last poll returned pending. */
  datatype Pc =
    | Idle
    | Checking
    | Registering
    | Rechecking
    | Parked
    | Done(status: Status)
    | Gone(finished: bool)

  /** `waker` is the waker of the latest poll, `notified` whether it was woken since that poll began. */
  datatype Fut = Fut(kind: Kind, slot: SlotId, pc: Pc, waker: Waker, notified: bool)

  /**
   `freed` and `completed` count, per request, how often it was freed and how often UCX was done with it;
   `finals` records the status UCX published; `misuse` is set by any access to a request that was freed.
   */
  datatype State = State(
    slots: map<SlotId, Slot>,
    futs: map<Req, Fut>,
    finals: map<Req, Status>,
    freed: multiset<Req>,
    completed: multiset<Req>,
    misuse: bool)

  datatype Step =
    | Issue(req: Req, slot: SlotId, kind: Kind)
    | Publish(slot: SlotId, status: Status)
    | Complete(slot: SlotId)
    | BeginPoll(req: Req, waker: Waker)
    | Check(req: Req)
    | Register(req: Req)
    | Recheck(req: Req)
    | Drop(req: Req)

  function Init(): State {
    State(map[], map[], map[], multiset{}, multiset{}, false)
  }

  /** A slot UCX may hand out: new memory, or memory whose request was freed and is done with. */
  predicate Available(s: State, slot: SlotId) {
    slot in s.slots ==> s.slots[slot].freed && s.slots[slot].phase == Finished
  }

  /** New memory is initialised with no waker; recycled memory keeps the waker it has. */
  function FirstWaker(s: State, slot: SlotId): Option<Waker> {
    if slot in s.slots then s.slots[slot].waker else None
  }

  function IssueRequest(s: State, r: Req, c: SlotId, kind: Kind): State {
    s.(slots := s.slots[c := Slot(r, InFlight, UCS_INPROGRESS, FirstWaker(s, c), false, kind == Handle)],
       futs := s.futs[r := Fut(kind, c, Idle, 0, false)])
  }

  /** UCX completes the operation: from here on a check sees its final status. */
  function PublishStatus(s: State, c: SlotId, status: Status): State
    requires c in s.slots
  {
    s.(slots := s.slots[c := s.slots[c].(phase := Published, status := status)],
       finals := s.finals[s.slots[c].req := status])
  }

  /** Waking a waker notifies every future whose latest poll used it. */
  function Wake(futs: map<Req, Fut>, waker: Option<Waker>): map<Req, Fut> {
    map r | r in futs ::
      if waker == Some(futs[r].waker) then futs[r].(notified := true) else futs[r]
  }

  /**
   UCX is done with the request. The completion callback, if there is one, takes the waker out of the slot
   and wakes it; the close loop's request has none, and leaves the slot's waker where it is.
   */
  function CompleteRequest(s: State, c: SlotId): State
    requires c in s.slots
  {
    var slot := s.slots[c];
    var done := s.(completed := s.completed + multiset{slot.req});
    if slot.callback then
      done.(slots := s.slots[c := slot.(phase := Finished, waker := None)], futs := Wake(s.futs, slot.waker))
    else
      done.(slots := s.slots[c := slot.(phase := Finished)])
  }

  /** A poll begins, for whatever reason the executor has. */
  function StartPoll(s: State, r: Req, waker: Waker): State
    requires r in s.futs
  {
    s.(futs := s.futs[r := s.futs[r].(pc := Checking, waker := waker, notified := false)])
  }

  /** Whether the slot of a future still holds its request. */
  predicate Owns(s: State, r: Req)
    requires r in s.futs
  {
    var c := s.futs[r].slot;
    c in s.slots && s.slots[c].req == r && !s.slots[c].freed
  }

  /** `ucp_request_check_status`. */
  function Observe(slot: Slot): Status {
    if slot.phase == InFlight then UCS_INPROGRESS else slot.status
  }

  function WithPc(s: State, r: Req, pc: Pc): State
    requires r in s.futs
  {
    s.(futs := s.futs[r := s.futs[r].(pc := pc)])
  }

  /** `ucp_request_free`, after which the future is at `pc`. */
  function Release(s: State, r: Req, pc: Pc): State
    requires r in s.futs
  {
    var c := s.futs[r].slot;
    if Owns(s, r) then
      WithPc(s.(slots := s.slots[c := s.slots[c].(freed := true)], freed := s.freed + multiset{r}), r, pc)
    else
      s.(misuse := true)
  }

  /** One of the two checks of `RequestHandle::poll`: complete requests end the poll, others move it on. */
  function CheckHandle(s: State, r: Req, otherwise: Pc): State
    requires r in s.futs
  {
    if !Owns(s, r) then
      s.(misuse := true)
    else
      var seen := Observe(s.slots[s.futs[r].slot]);
      WithPc(s, r, if seen == UCS_INPROGRESS then otherwise else Done(seen))
  }

  /** The check of the loop in `close`: it frees a complete request at once, and otherwise wakes itself and yields. */
  function CheckCloseLoop(s: State, r: Req): State
    requires r in s.futs
  {
    if !Owns(s, r) then
      s.(misuse := true)
    else
      var seen := Observe(s.slots[s.futs[r].slot]);
      if seen == UCS_INPROGRESS then
        s.(futs := s.futs[r := s.futs[r].(pc := Parked, notified := true)])
      else
        Release(s, r, Done(seen))
  }

  function RegisterWaker(s: State, r: Req): State
    requires r in s.futs
  {
    var c := s.futs[r].slot;
    if Owns(s, r) then
      WithPc(s.(slots := s.slots[c := s.slots[c].(waker := Some(s.futs[r].waker))]), r, Rechecking)
    else
      s.(misuse := true)
  }

  /** Dropping a `RequestHandle` frees its request; a dropped close loop leaves it as it is. */
  function DropFuture(s: State, r: Req): State
    requires r in s.futs
  {
    var pc := Gone(s.futs[r].pc.Done?);
    if s.futs[r].kind == Handle then Release(s, r, pc) else WithPc(s, r, pc)
  }

  predicate Enabled(s: State, step: Step) {
    match step
    case Issue(r, c, _) => r !in s.futs && Available(s, c)
    case Publish(c, status) => c in s.slots && s.slots[c].phase == InFlight && status != UCS_INPROGRESS
    case Complete(c) => c in s.slots && s.slots[c].phase == Published
    case BeginPoll(r, _) => r in s.futs && (s.futs[r].pc == Idle || s.futs[r].pc == Parked)
    case Check(r) => r in s.futs && s.futs[r].pc == Checking
    case Register(r) => r in s.futs && s.futs[r].pc == Registering
    case Recheck(r) => r in s.futs && s.futs[r].pc == Rechecking
    case Drop(r) => r in s.futs && (s.futs[r].pc == Idle || s.futs[r].pc == Parked || s.futs[r].pc.Done?)
  }

  function Next(s: State, step: Step): Option<State> {
    if !Enabled(s, step) then None else
      Some(match step
           case Issue(r, c, kind) => IssueRequest(s, r, c, kind)
           case Publish(c, status) => PublishStatus(s, c, status)
           case Complete(c) => CompleteRequest(s, c)
           case BeginPoll(r, waker) => StartPoll(s, r, waker)
           case Check(r) => if s.futs[r].kind == Handle then CheckHandle(s, r, Registering) else CheckCloseLoop(s, r)
           case Register(r) => RegisterWaker(s, r)
           case Recheck(r) => CheckHandle(s, r, Parked)
           case Drop(r) => DropFuture(s, r))
  }

  // ---- What the protocol promises ----

  /** Whether the crate should have freed the request by now. */
  predicate DueFreed(fut: Fut) {
    if fut.kind == Handle then fut.pc.Gone? else fut.pc.Done? || (fut.pc.Gone? && fut.pc.finished)
  }

  /** The future was woken since its last poll began, or its waker is in its slot and the wake is still to come. */
  predicate WakeAssured(s: State, r: Req)
    requires r in s.futs
  {
    var c := s.futs[r].slot;
    || s.futs[r].notified
    || (Owns(s, r) && s.slots[c].callback && s.slots[c].phase != Finished && s.slots[c].waker == Some(s.futs[r].waker))
  }

  ghost predicate NoLostWakeup(s: State) {
    forall r :: r in s.futs && s.futs[r].pc == Parked ==> WakeAssured(s, r)
  }

  /**
   No access ever finds a freed request. Every request is freed once it is due and not before, and
   never twice; its callback runs at most once. A slot moves on to another request only after the
   earlier one was freed and is done with.
   */
  ghost predicate SlotConservation(s: State) {
    && !s.misuse
    && (forall r :: r in s.futs ==> s.freed[r] == (if DueFreed(s.futs[r]) then 1 else 0) && s.completed[r] <= 1)
    && (forall r :: r in s.futs && !DueFreed(s.futs[r]) ==> Owns(s, r))
    && (forall r :: r in s.futs && s.futs[r].slot in s.slots && s.slots[s.futs[r].slot].req != r ==>
          s.freed[r] == 1 && s.completed[r] == 1)
  }

  /** A future only ever reports the status that UCX published for its own request. */
  ghost predicate OwnResult(s: State) {
    forall r :: r in s.futs && s.futs[r].pc.Done? ==> r in s.finals && s.finals[r] == s.futs[r].pc.status
  }

  // ---- The invariant, one future and one slot at a time ----

  ghost predicate FutOk(s: State, r: Req)
    requires r in s.futs
  {
    var fut := s.futs[r];
    && fut.slot in s.slots
    && s.freed[r] == (if DueFreed(fut) then 1 else 0)
    && (!DueFreed(fut) ==> Owns(s, r))
    && (s.slots[fut.slot].req != r ==> s.freed[r] == 1 && s.completed[r] == 1)
    && (fut.pc.Done? ==> r in s.finals && s.finals[r] == fut.pc.status)
    && (fut.pc == Registering || fut.pc == Rechecking ==> fut.kind == Handle)
    && (fut.pc == Rechecking ==> WakeAssured(s, r) || s.slots[fut.slot].phase == Finished)
    && (fut.pc == Parked ==> WakeAssured(s, r))
  }

  ghost predicate SlotOk(s: State, c: SlotId)
    requires c in s.slots
  {
    var slot := s.slots[c];
    && slot.req in s.futs
    && s.futs[slot.req].slot == c
    && slot.callback == (s.futs[slot.req].kind == Handle)
    && s.completed[slot.req] == (if slot.phase == Finished then 1 else 0)
    && s.freed[slot.req] == (if slot.freed then 1 else 0)
    && (slot.req in s.finals <==> slot.phase != InFlight)
    && (slot.phase != InFlight ==> slot.status != UCS_INPROGRESS && s.finals[slot.req] == slot.status)
  }

  ghost predicate Inv(s: State) {
    && !s.misuse
    && (forall r :: r in s.futs ==> FutOk(s, r))
    && (forall c :: c in s.slots ==> SlotOk(s, c))
    && (forall r :: r !in s.futs ==> s.freed[r] == 0 && s.completed[r] == 0 && r !in s.finals)
  }

  lemma ReleaseKeepsFut(s: State, r: Req, pc: Pc, q: Req)
    requires r in s.futs && FutOk(s, r) && q in s.futs && FutOk(s, q) && SlotOk(s, s.futs[r].slot)
    requires !DueFreed(s.futs[r]) && (pc.Done? || pc.Gone?) && DueFreed(s.futs[r].(pc := pc))
    requires pc.Done? ==> r in s.finals && s.finals[r] == pc.status
    ensures FutOk(Release(s, r, pc), q)
  {
  }

  lemma ReleaseKeepsSlot(s: State, r: Req, pc: Pc, d: SlotId)
    requires r in s.futs && FutOk(s, r) && !DueFreed(s.futs[r]) && d in s.slots && SlotOk(s, d)
    ensures SlotOk(Release(s, r, pc), d)
  {
  }

  lemma ReleaseKeepsInv(s: State, r: Req, pc: Pc)
    requires Inv(s) && r in s.futs && !DueFreed(s.futs[r])
    requires pc.Done? || pc.Gone?
    requires DueFreed(s.futs[r].(pc := pc))
    requires pc.Done? ==> r in s.finals && s.finals[r] == pc.status
    ensures Inv(Release(s, r, pc))
  {
    var t := Release(s, r, pc);
    assert FutOk(s, r) && SlotOk(s, s.futs[r].slot);
    forall q | q in t.futs ensures FutOk(t, q) {
      ReleaseKeepsFut(s, r, pc, q);
    }
    forall d | d in t.slots ensures SlotOk(t, d) {
      ReleaseKeepsSlot(s, r, pc, d);
    }
  }

  lemma CheckKeepsFut(s: State, r: Req, otherwise: Pc, q: Req)
    requires r in s.futs && s.futs[r].kind == Handle && FutOk(s, r) && SlotOk(s, s.futs[r].slot)
    requires || (s.futs[r].pc == Checking && otherwise == Registering)
             || (s.futs[r].pc == Rechecking && otherwise == Parked)
    requires q in s.futs && FutOk(s, q)
    ensures FutOk(CheckHandle(s, r, otherwise), q)
  {
  }

  lemma CheckHandleKeepsInv(s: State, r: Req, otherwise: Pc)
    requires Inv(s) && r in s.futs && s.futs[r].kind == Handle
    requires || (s.futs[r].pc == Checking && otherwise == Registering)
             || (s.futs[r].pc == Rechecking && otherwise == Parked)
    ensures Inv(CheckHandle(s, r, otherwise))
  {
    var t := CheckHandle(s, r, otherwise);
    assert FutOk(s, r) && SlotOk(s, s.futs[r].slot);
    forall q | q in t.futs ensures FutOk(t, q) {
      CheckKeepsFut(s, r, otherwise, q);
    }
    forall d | d in t.slots ensures SlotOk(t, d) {
      assert SlotOk(s, d);
    }
  }

  lemma CheckCloseLoopKeepsInv(s: State, r: Req)
    requires Inv(s) && r in s.futs && s.futs[r].kind == CloseLoop && s.futs[r].pc == Checking
    ensures Inv(CheckCloseLoop(s, r))
  {
    var c := s.futs[r].slot;
    if s.slots[c].phase != InFlight { ReleaseKeepsInv(s, r, Done(s.slots[c].status)); }
  }

  lemma IssueKeepsInv(s: State, r: Req, c: SlotId, kind: Kind)
    requires Inv(s) && r !in s.futs && Available(s, c)
    ensures Inv(IssueRequest(s, r, c, kind))
  {
    var t := IssueRequest(s, r, c, kind);
    forall q | q in t.futs ensures FutOk(t, q) {
      if q != r { assert FutOk(s, q); }
    }
    forall d | d in t.slots ensures SlotOk(t, d) {
      if d != c { assert SlotOk(s, d); }
    }
  }

  lemma PublishKeepsFut(s: State, c: SlotId, status: Status, r: Req)
    requires c in s.slots && SlotOk(s, c) && s.slots[c].phase == InFlight && r in s.futs && FutOk(s, r)
    ensures FutOk(PublishStatus(s, c, status), r)
  {
  }

  lemma PublishKeepsSlot(s: State, c: SlotId, status: Status, d: SlotId)
    requires c in s.slots && SlotOk(s, c) && s.slots[c].phase == InFlight && status != UCS_INPROGRESS
    requires d in s.slots && SlotOk(s, d)
    ensures SlotOk(PublishStatus(s, c, status), d)
  {
  }

  lemma PublishKeepsInv(s: State, c: SlotId, status: Status)
    requires Inv(s) && c in s.slots && s.slots[c].phase == InFlight && status != UCS_INPROGRESS
    ensures Inv(PublishStatus(s, c, status))
  {
    var t := PublishStatus(s, c, status);
    assert SlotOk(s, c);
    forall r | r in t.futs ensures FutOk(t, r) {
      PublishKeepsFut(s, c, status, r);
    }
    forall d | d in t.slots ensures SlotOk(t, d) {
      PublishKeepsSlot(s, c, status, d);
    }
  }

  lemma CompleteKeepsFut(s: State, c: SlotId, r: Req)
    requires c in s.slots && SlotOk(s, c) && s.slots[c].phase == Published && r in s.futs && FutOk(s, r)
    ensures FutOk(CompleteRequest(s, c), r)
  {
  }

  lemma CompleteKeepsSlot(s: State, c: SlotId, d: SlotId)
    requires c in s.slots && SlotOk(s, c) && s.slots[c].phase == Published && d in s.slots && SlotOk(s, d)
    ensures SlotOk(CompleteRequest(s, c), d)
  {
  }

  lemma CompleteKeepsInv(s: State, c: SlotId)
    requires Inv(s) && c in s.slots && s.slots[c].phase == Published
    ensures Inv(CompleteRequest(s, c))
  {
    var t := CompleteRequest(s, c);
    assert SlotOk(s, c);
    forall r | r in t.futs ensures FutOk(t, r) {
      CompleteKeepsFut(s, c, r);
    }
    forall d | d in t.slots ensures SlotOk(t, d) {
      CompleteKeepsSlot(s, c, d);
    }
  }

  lemma StartPollKeepsInv(s: State, r: Req, waker: Waker)
    requires Inv(s) && r in s.futs && (s.futs[r].pc == Idle || s.futs[r].pc == Parked)
    ensures Inv(StartPoll(s, r, waker))
  {
    var t := StartPoll(s, r, waker);
    forall q | q in t.futs ensures FutOk(t, q) {
      assert FutOk(s, q);
    }
    forall d | d in t.slots ensures SlotOk(t, d) {
      assert SlotOk(s, d);
    }
  }

  lemma RegisterKeepsInv(s: State, r: Req)
    requires Inv(s) && r in s.futs && s.futs[r].pc == Registering
    ensures Inv(RegisterWaker(s, r))
  {
    var t := RegisterWaker(s, r);
    assert FutOk(s, r);
    forall q | q in t.futs ensures FutOk(t, q) {
      assert FutOk(s, q);
    }
    forall d | d in t.slots ensures SlotOk(t, d) {
      assert SlotOk(s, d);
    }
  }

  lemma DropCloseLoopKeepsFut(s: State, r: Req, q: Req)
    requires r in s.futs && FutOk(s, r) && s.futs[r].kind == CloseLoop && Enabled(s, Drop(r))
    requires q in s.futs && FutOk(s, q)
    ensures FutOk(WithPc(s, r, Gone(s.futs[r].pc.Done?)), q)
  {
  }

  lemma DropCloseLoopKeepsInv(s: State, r: Req)
    requires Inv(s) && Enabled(s, Drop(r)) && s.futs[r].kind == CloseLoop
    ensures Inv(WithPc(s, r, Gone(s.futs[r].pc.Done?)))
  {
    var t := WithPc(s, r, Gone(s.futs[r].pc.Done?));
    assert FutOk(s, r);
    forall q | q in t.futs ensures FutOk(t, q) {
      DropCloseLoopKeepsFut(s, r, q);
    }
    forall d | d in t.slots ensures SlotOk(t, d) {
      assert SlotOk(s, d);
    }
  }

  lemma DropKeepsInv(s: State, r: Req)
    requires Inv(s) && Enabled(s, Drop(r))
    ensures Inv(DropFuture(s, r))
  {
    if s.futs[r].kind == Handle {
      ReleaseKeepsInv(s, r, Gone(s.futs[r].pc.Done?));
    } else {
      DropCloseLoopKeepsInv(s, r);
    }
  }

  lemma StepKeepsInv(s: State, step: Step)
    requires Inv(s) && Enabled(s, step)
    ensures Inv(Next(s, step).value)
  {
    match step
    case Issue(r, c, kind) => IssueKeepsInv(s, r, c, kind);
    case Publish(c, status) => PublishKeepsInv(s, c, status);
    case Complete(c) => CompleteKeepsInv(s, c);
    case BeginPoll(r, waker) => StartPollKeepsInv(s, r, waker);
    case Check(r) =>
      if s.futs[r].kind == Handle {
        CheckHandleKeepsInv(s, r, Registering);
      } else {
        CheckCloseLoopKeepsInv(s, r);
      }
    case Register(r) => RegisterKeepsInv(s, r);
    case Recheck(r) =>
      assert FutOk(s, r);
      CheckHandleKeepsInv(s, r, Parked);
    case Drop(r) => DropKeepsInv(s, r);
  }

  lemma {:induction false} RunKeepsInv(s: State, steps: seq<Step>)
    requires Inv(s) && Run(Next, s, steps).Some?
    ensures Inv(Run(Next, s, steps).value)
  {
    forall t, l | Inv(t) && Next(t, l).Some? ensures Inv(Next(t, l).value) {
      StepKeepsInv(t, l);
    }
    Preserved(Next, t => Inv(t), s, steps);
  }

  // ---- Main results ----

  lemma InvMeansSafe(s: State)
    requires Inv(s)
    ensures NoLostWakeup(s) && SlotConservation(s) && OwnResult(s)
  {
    forall r | r in s.futs ensures FutOk(s, r) && s.completed[r] <= 1 {
      assert FutOk(s, r);
      assert SlotOk(s, s.futs[r].slot);
    }
  }

  /**
   In every interleaving no wake-up is lost, no request is misused, leaked by a handle or freed twice,
   and no result is mixed up.
   */
  lemma {:induction false} EveryRunIsSafe(steps: seq<Step>)
    requires Run(Next, Init(), steps).Some?
    ensures NoLostWakeup(Run(Next, Init(), steps).value)
    ensures SlotConservation(Run(Next, Init(), steps).value)
    ensures OwnResult(Run(Next, Init(), steps).value)
  {
    RunKeepsInv(Init(), steps);
    InvMeansSafe(Run(Next, Init(), steps).value);
  }

  /**
   A completion wakes the futures polled with the waker it takes, if it has a callback, and changes no
   other future.
   */
  ghost predicate OnlyNotifies(s: State, t: State, c: SlotId)
    requires c in s.slots
  {
    && t.futs.Keys == s.futs.Keys
    && t.slots.Keys == s.slots.Keys
    && (forall r :: r in s.futs ==> t.futs[r].(notified := s.futs[r].notified) == s.futs[r])
    && (forall r :: r in s.futs ==>
          (t.futs[r].notified <==>
           s.futs[r].notified || (s.slots[c].callback && s.slots[c].waker == Some(s.futs[r].waker))))
    && t.slots[c].waker == (if s.slots[c].callback then None else s.slots[c].waker)
    && (forall d :: d in s.slots && d != c ==> t.slots[d] == s.slots[d])
    && t.finals == s.finals && t.freed == s.freed && t.misuse == s.misuse
  }

  /** A stale waker is harmless: whichever future left it in the slot, the completion only notifies futures. */
  lemma StaleWakersOnlyNotify(s: State, c: SlotId)
    requires Enabled(s, Complete(c))
    ensures OnlyNotifies(s, CompleteRequest(s, c), c)
  {
  }

  lemma ParkedKeepsItsRequest(s: State, c: SlotId, r: Req)
    requires r in s.futs && FutOk(s, r) && s.futs[r].pc == Parked && Enabled(s, Complete(c)) && s.futs[r].slot != c
    ensures var t := CompleteRequest(s, c);
            && Owns(t, r) && t.slots[s.futs[r].slot] == s.slots[s.futs[r].slot]
            && t.futs[r].(notified := s.futs[r].notified) == s.futs[r]
  {
  }

  /**
   A future woken by mistake finds its own request unfinished, and its next poll parks it again with its
   new waker in its slot.
   */
  lemma SpuriousWakesParkAgain(s: State, c: SlotId, r: Req, waker: Waker)
    requires Inv(s) && Enabled(s, Complete(c))
    requires r in s.futs && s.futs[r].kind == Handle && s.futs[r].pc == Parked && s.futs[r].slot != c
    requires s.slots[s.futs[r].slot].phase == InFlight
    ensures var t := PollAtOnce(CompleteRequest(s, c), r, waker);
            && t.futs[r] == s.futs[r].(waker := waker, notified := false)
            && t.slots[s.futs[r].slot] == s.slots[s.futs[r].slot].(waker := Some(waker))
  {
    var t := CompleteRequest(s, c);
    ParkedKeepsItsRequest(s, c, r);
    PollAtOnceIsLocal(t, r, waker);
    assert t.futs[r].(waker := waker, notified := false, pc := Parked) ==
           s.futs[r].(waker := waker, notified := false);
  }

  /**
   The wake is worth having: from any reachable state, once UCX completes the request of a parked
   future, the future is notified, and its next poll returns the published status at the first check.
   */
  lemma CompletionReachesItsFuture(s: State, r: Req, status: Status, waker: Waker)
    requires Inv(s) && r in s.futs && s.futs[r].kind == Handle && s.futs[r].pc == Parked
    requires s.slots[s.futs[r].slot].phase == InFlight && status != UCS_INPROGRESS
    ensures var c := s.futs[r].slot;
            var t := CompleteRequest(PublishStatus(s, c, status), c);
            && t.futs[r].notified
            && PollAtOnce(t, r, waker) == WithPc(StartPoll(t, r, waker), r, Done(status))
  {
    assert FutOk(s, r);
  }

  // ---- What each step touches ----

  /** The future that a step is about; UCX's own steps are about none. */
  function Mover(step: Step): Option<Req> {
    match step
    case Issue(r, _, _) => Some(r)
    case BeginPoll(r, _) => Some(r)
    case Check(r) => Some(r)
    case Register(r) => Some(r)
    case Recheck(r) => Some(r)
    case Drop(r) => Some(r)
    case Publish(_, _) => None
    case Complete(_) => None
  }

  /** A future changes itself, and of its slot the waker and whether it is freed. */
  ghost predicate TouchesItsOwn(s: State, t: State, r: Req, waker: Option<Waker>)
    requires r in s.futs && s.futs[r].slot in s.slots
  {
    var c := s.futs[r].slot;
    && r in t.futs && t.futs == s.futs[r := t.futs[r]] && c in t.slots
    && t.slots == s.slots[c := s.slots[c].(waker := waker, freed := t.slots[c].freed)]
  }

  lemma StepTouchesItsOwn(s: State, step: Step, r: Req)
    requires r in s.futs && FutOk(s, r) && Enabled(s, step) && Mover(step) == Some(r)
    ensures var waker := if step.Register? then Some(s.futs[r].waker) else s.slots[s.futs[r].slot].waker;
            TouchesItsOwn(s, Next(s, step).value, r, waker)
  {
    var c := s.futs[r].slot;
    assert s.slots[c := s.slots[c]] == s.slots;
  }

  /** What a step leaves in a slot that was there: only its future registers a waker, and only a callback takes it. */
  function WakerAfter(s: State, step: Step, c: SlotId): Option<Waker>
    requires c in s.slots
  {
    if step.Register? && step.req in s.futs && s.futs[step.req].slot == c then Some(s.futs[step.req].waker)
    else if step == Complete(c) && s.slots[c].callback then None
    else s.slots[c].waker
  }

  /** Only UCX moves a request on, and only its own steps free it. */
  ghost predicate SlotFollows(s: State, step: Step, t: State, c: SlotId)
    requires c in s.slots
  {
    && c in t.slots && t.slots[c].waker == WakerAfter(s, step, c)
    && (!(step.Issue? && step.slot == c) ==>
          && t.slots[c].req == s.slots[c].req && t.slots[c].callback == s.slots[c].callback
          && t.slots[c].phase ==
             (if step.Publish? && step.slot == c then Published
              else if step == Complete(c) then Finished else s.slots[c].phase)
          && t.slots[c].status == (if step.Publish? && step.slot == c then step.status else s.slots[c].status))
  }

  lemma FuturesLeaveSlots(s: State, step: Step, r: Req, t: State, c: SlotId)
    requires r in s.futs && s.futs[r].slot in s.slots && c in s.slots && Mover(step) == Some(r) && !step.Issue?
    requires TouchesItsOwn(
               s, t, r, if step.Register? then Some(s.futs[r].waker) else s.slots[s.futs[r].slot].waker)
    ensures SlotFollows(s, step, t, c) && t.slots.Keys == s.slots.Keys
  {
  }

  lemma UcxMovesSlots(s: State, step: Step, c: SlotId)
    requires Enabled(s, step) && (step.Publish? || step.Complete?) && c in s.slots
    ensures SlotFollows(s, step, Next(s, step).value, c) && Next(s, step).value.slots.Keys == s.slots.Keys
  {
  }

  lemma IssuesMoveSlots(s: State, step: Step, c: SlotId)
    requires Enabled(s, step) && step.Issue?
    ensures c in s.slots ==> SlotFollows(s, step, Next(s, step).value, c)
    ensures c !in s.slots && c in Next(s, step).value.slots ==>
              step.slot == c && Next(s, step).value.slots[c].waker == None
  {
  }

  /**
   Nothing but UCX moves a request on, and nothing but its future and its callback moves the waker of a slot:
   so memory that UCX recycles keeps the one it has, while new memory has none.
   */
  lemma SlotsChangeOnlySo(s: State, step: Step, c: SlotId)
    requires Inv(s) && Enabled(s, step)
    ensures var t := Next(s, step).value;
            && (c in s.slots ==> SlotFollows(s, step, t, c))
            && (c !in s.slots && c in t.slots ==> step.Issue? && step.slot == c && t.slots[c].waker == None)
  {
    if step.Issue? {
      IssuesMoveSlots(s, step, c);
    } else if c in s.slots {
      if step.Publish? || step.Complete? {
        UcxMovesSlots(s, step, c);
      } else {
        assert FutOk(s, step.req);
        StepTouchesItsOwn(s, step, step.req);
        FuturesLeaveSlots(s, step, step.req, Next(s, step).value, c);
      }
    } else {
      SlotsComeByIssue(s, step, c);
    }
  }

  lemma SlotsComeByIssue(s: State, step: Step, c: SlotId)
    requires Inv(s) && Enabled(s, step) && !step.Issue? && c !in s.slots
    ensures c !in Next(s, step).value.slots
  {
    if !step.Publish? && !step.Complete? {
      assert FutOk(s, step.req);
      StepTouchesItsOwn(s, step, step.req);
    }
  }

  /** A future moves only by its own steps, except that a completion may notify it. */
  lemma OthersDoNotMove(s: State, step: Step, r: Req)
    requires Inv(s) && Enabled(s, step) && r in s.futs && Mover(step) != Some(r)
    ensures var t := Next(s, step).value;
            && r in t.futs
            && t.futs[r].(notified := s.futs[r].notified) == s.futs[r]
            && (t.futs[r].notified <==>
                  || s.futs[r].notified
                  || (step.Complete? && s.slots[step.slot].callback &&
                      s.slots[step.slot].waker == Some(s.futs[r].waker)))
  {
    if Mover(step).Some? && !step.Issue? {
      assert FutOk(s, step.req);
      StepTouchesItsOwn(s, step, step.req);
    }
  }

  /** A turn of the loop in `close` while the request runs: it yields, to be polled again at once. */
  lemma CloseLoopYields(s: State, r: Req, waker: Waker)
    requires r in s.futs && FutOk(s, r) && s.futs[r].kind == CloseLoop && Enabled(s, BeginPoll(r, waker))
    requires s.slots[s.futs[r].slot].phase == InFlight
    ensures CheckCloseLoop(StartPoll(s, r, waker), r) ==
            s.(futs := s.futs[r := s.futs[r].(pc := Parked, waker := waker, notified := true)])
  {
    assert Owns(StartPoll(s, r, waker), r);
  }

  /** Once the request is complete, the next turn ends the loop with its status and frees it. */
  lemma CloseLoopEnds(s: State, r: Req, waker: Waker)
    requires r in s.futs && FutOk(s, r) && s.futs[r].kind == CloseLoop && Enabled(s, BeginPoll(r, waker))
    requires SlotOk(s, s.futs[r].slot) && s.slots[s.futs[r].slot].phase != InFlight
    ensures var c, t := s.futs[r].slot, CheckCloseLoop(StartPoll(s, r, waker), r);
            && t.futs[r].pc == Done(s.slots[c].status)
            && t.slots == s.slots[c := s.slots[c].(freed := true)] && t.freed == s.freed + multiset{r}
  {
    var begun := StartPoll(s, r, waker);
    assert Owns(begun, r);
    assert CheckCloseLoop(begun, r) == Release(begun, r, Done(s.slots[s.futs[r].slot].status));
  }

  // ---- Polls without interleaving ----

  /** `RequestHandle::poll` on a single-threaded worker: nothing happens between its micro-steps. */
  function PollAtOnce(s: State, r: Req, waker: Waker): State
    requires r in s.futs
    ensures r in PollAtOnce(s, r, waker).futs
  {
    var checked := CheckHandle(StartPoll(s, r, waker), r, Registering);
    if checked.futs[r].pc == Registering then
      CheckHandle(RegisterWaker(checked, r), r, Parked)
    else
      checked
  }

  /** What such a poll does to the slot of its request and to the future itself. */
  function PollOne(slot: Slot, fut: Fut, waker: Waker): (Slot, Fut) {
    var polled := fut.(waker := waker, notified := false);
    if Observe(slot) == UCS_INPROGRESS then
      (slot.(waker := Some(waker)), polled.(pc := Parked))
    else
      (slot, polled.(pc := Done(Observe(slot))))
  }

  /** The poll of the whole machine is that, and touches no other slot or future. */
  lemma PollAtOnceIsLocal(s: State, r: Req, waker: Waker)
    requires r in s.futs && Owns(s, r)
    ensures var c := s.futs[r].slot;
            var (slot, fut) := PollOne(s.slots[c], s.futs[r], waker);
            PollAtOnce(s, r, waker) == s.(slots := s.slots[c := slot], futs := s.futs[r := fut])
  {
    var c := s.futs[r].slot;
    if Observe(s.slots[c]) == UCS_INPROGRESS {
      var s1 := StartPoll(s, r, waker);
      assert CheckHandle(s1, r, Registering) == WithPc(s1, r, Registering);
    } else {
      assert s.slots[c := s.slots[c]] == s.slots;
    }
  }

  /** What UCX does to the slot of a request that it publishes and completes at one go. */
  function FinishOne(slot: Slot, status: Status): Slot {
    slot.(phase := Finished, status := status, waker := if slot.callback then None else slot.waker)
  }

  lemma FinishIsLocal(s: State, c: SlotId, status: Status)
    requires c in s.slots
    ensures var t := CompleteRequest(PublishStatus(s, c, status), c);
            && t.slots == s.slots[c := FinishOne(s.slots[c], status)]
            && t.futs == (if s.slots[c].callback then Wake(s.futs, s.slots[c].waker) else s.futs)
  {
  }

  lemma PollTakesItsSteps(s: State, r: Req, waker: Waker)
    requires Enabled(s, BeginPoll(r, waker)) && s.futs[r].kind == Handle
    ensures var s1 := StartPoll(s, r, waker);
            var s2 := CheckHandle(s1, r, Registering);
            && Next(s, BeginPoll(r, waker)) == Some(s1)
            && Next(s1, Check(r)) == Some(s2)
            && (s2.futs[r].pc == Registering ==>
                  && Next(s2, Register(r)) == Some(RegisterWaker(s2, r))
                  && Next(RegisterWaker(s2, r), Recheck(r)) == Some(CheckHandle(RegisterWaker(s2, r), r, Parked)))
  {
  }

  /** Such a poll is a run of the micro-steps, so what is proved of every run holds of it. */
  lemma PollAtOnceIsARun(s: State, r: Req, waker: Waker)
    requires Enabled(s, BeginPoll(r, waker)) && s.futs[r].kind == Handle
    ensures || Run(Next, s, [BeginPoll(r, waker), Check(r)]) == Some(PollAtOnce(s, r, waker))
            || Run(Next, s, [BeginPoll(r, waker), Check(r), Register(r), Recheck(r)]) == Some(PollAtOnce(s, r, waker))
  {
    PollTakesItsSteps(s, r, waker);
    var begun, checked := [BeginPoll(r, waker)], [BeginPoll(r, waker), Check(r)];
    RunSnoc(Next, s, [], BeginPoll(r, waker));
    assert [] + [BeginPoll(r, waker)] == begun;
    RunSnoc(Next, s, begun, Check(r));
    assert begun + [Check(r)] == checked;
    if Run(Next, s, checked).value.futs[r].pc == Registering {
      RunSnoc(Next, s, checked, Register(r));
      RunSnoc(Next, s, checked + [Register(r)], Recheck(r));
      assert checked + [Register(r)] + [Recheck(r)] == [BeginPoll(r, waker), Check(r), Register(r), Recheck(r)];
    }
  }
}
