/**
 Awaiting one request: `RequestHandle` as an object, the operations that issue a request and await
 it, and what they return. The objects do to their own slot and future what `Completion` does to all
 of them when nothing comes between the micro-steps of a poll, which is how a worker is used.
 */
module Requests {
  import opened Wrappers
  import opened StatusWords
  import C = Completion

  /**
   One request inside UCX, and the waker the crate keeps in its memory. `remaining` is how many calls of
   progress will leave it running: any number, since nothing says when UCX completes it.
   */
  class UcxRequest {
    const req: C.Req
    const final: Status
    const callback: bool
    var phase: C.Phase
    var status: Status
    var waker: Option<C.Waker>
    var freed: bool
    var remaining: nat

    ghost function Slot(): C.Slot
      reads this
    {
      C.Slot(req, phase, status, waker, freed, callback)
    }

    ghost predicate Valid()
      reads this
    {
      final != UCS_INPROGRESS && (phase != C.InFlight ==> status == final)
    }

    /** A request in memory that may hold a stale waker. */
    constructor (req: C.Req, final: Status, callback: bool, stale: Option<C.Waker>, remaining: nat)
      requires final != UCS_INPROGRESS
      ensures Valid() && this.final == final && this.remaining == remaining
      ensures Slot() == C.Slot(req, C.InFlight, UCS_INPROGRESS, stale, false, callback)
    {
      this.req, this.final, this.callback := req, final, callback;
      phase, status, waker, freed := C.InFlight, UCS_INPROGRESS, stale, false;
      this.remaining := remaining;
    }

    /** `ucp_request_check_status`, which must not see a request that was freed. */
    method CheckStatus() returns (seen: Status)
      requires !freed
      ensures seen == C.Observe(Slot())
    {
      seen := if phase == C.InFlight then UCS_INPROGRESS else status;
    }

    /** `ucp_request_free`. */
    method Free()
      requires !freed
      modifies this`freed
      ensures freed
    {
      freed := true;
    }

    /** `ucp_worker_progress`, as far as it concerns this request; `woken` is the waker its callback wakes. */
    method Progress() returns (woken: Option<C.Waker>)
      requires Valid()
      modifies this`phase, this`status, this`waker, this`remaining
      ensures Valid()
      ensures var ends := old(phase) == C.InFlight && old(remaining) == 0;
              && Slot() == (if ends then C.FinishOne(old(Slot()), final) else old(Slot()))
              && woken == (if ends && callback then old(waker) else None)
              && (old(remaining) > 0 ==> remaining < old(remaining))
    {
      woken := None;
      if remaining > 0 {
        remaining := remaining - 1;
      } else if phase == C.InFlight {
        phase, status := C.Finished, final;
        if callback {
          woken, waker := waker, None;
        }
      }
    }
  }

  /** `poll_normal`. */
  method PollNormal(request: UcxRequest) returns (p: Poll<Result<(), Error>>)
    requires request.Valid() && !request.freed
    ensures p == if request.phase == C.InFlight then Pending else Ready(FromStatus(request.final))
  {
    var status := request.CheckStatus();
    if status == UCS_INPROGRESS {
      p := Pending;
    } else {
      p := Ready(FromStatus(status));
    }
  }

  class RequestHandle {
    const request: UcxRequest
    const slot: C.SlotId

    // What `Completion` knows of the future.
    ghost var pc: C.Pc
    ghost var latest: C.Waker
    ghost var notified: bool

    ghost function Fut(): C.Fut
      reads this
    {
      C.Fut(C.Handle, slot, pc, latest, notified)
    }

    constructor (request: UcxRequest, slot: C.SlotId)
      ensures this.request == request && Fut() == C.Fut(C.Handle, slot, C.Idle, 0, false)
    {
      this.request, this.slot := request, slot;
      pc, latest, notified := C.Idle, 0, false;
    }

    /**
     Check, register, check again: a poll is pending exactly if the request runs, and then its waker is in
     the slot.
     */
    method Poll(waker: C.Waker) returns (p: Poll<Result<(), Error>>)
      requires request.Valid() && !request.freed && (pc == C.Idle || pc == C.Parked)
      modifies this, request`waker
      ensures (request.Slot(), Fut()) == C.PollOne(old(request.Slot()), old(Fut()), waker)
      ensures p == if request.phase == C.InFlight then Pending else Ready(FromStatus(request.final))
    {
      latest, notified := waker, false;
      p := PollNormal(request);
      if p.Ready? {
        pc := C.Done(request.status);
        return;
      }
      request.waker := Some(waker);
      p := PollNormal(request);
      ghost var seen := C.Observe(request.Slot());
      pc := if seen == UCS_INPROGRESS then C.Parked else C.Done(seen);
    }

    /** `Drop`: the request is freed. */
    method Drop()
      requires !request.freed
      modifies this`pc, request`freed
      ensures request.freed && pc == C.Gone(old(pc).Done?)
    {
      request.Free();
      pc := C.Gone(pc.Done?);
    }
  }

  /**
   Awaiting a handle: the task is polled once, and then again only when its waker was woken. That this ends,
   whenever UCX completes the request, is the wake-up not being lost; the request is freed once.
   */
  method Await(request: UcxRequest, slot: C.SlotId, waker: C.Waker) returns (result: Result<(), Error>)
    requires request.Valid() && !request.freed && request.callback
    modifies request
    ensures result == FromStatus(request.final)
    ensures request.freed && request.phase != C.InFlight
  {
    var handle := new RequestHandle(request, slot);
    var p := handle.Poll(waker);
    while p == Pending
      invariant request.Valid() && !request.freed
      invariant p == Pending ==> handle.pc == C.Parked && request.phase == C.InFlight && request.waker == Some(waker)
      invariant p.Ready? ==> p == Ready(FromStatus(request.final)) && request.phase != C.InFlight
      decreases p == Pending
    {
      var woken := None;
      while woken != Some(waker)
        invariant request.Valid() && !request.freed && handle.pc == C.Parked
        invariant woken != Some(waker) ==> request.phase == C.InFlight && request.waker == Some(waker)
        invariant woken == Some(waker) ==> request.phase == C.Finished
        decreases woken != Some(waker), request.remaining
      {
        woken := request.Progress();
      }
      p := handle.Poll(waker);
    }
    handle.Drop();
    result := p.value;
  }

  /**
   What UCX may return for an operation that will end with status `final`: null only if it already
   ended well, an error word only for its own error, a pointer if the outcome is still to come.
   */
  predicate Answers(word: Word, final: Status) {
    && (IsNull(word) ==> final == UCS_OK)
    && (IsErr(word) ==> final == RawStatus(word))
  }

  /** The dispatch of `flush`, `put` and `get`, whose last branch passes the error word on. */
  method AwaitOperation(word: Word, request: UcxRequest, slot: C.SlotId, waker: C.Waker)
    returns (result: Result<(), Error>)
    requires Answers(word, request.final)
    requires request.Valid() && !request.freed && request.callback
    modifies request
    ensures result == FromStatus(request.final)
    ensures request.freed <==> IsPtr(word)
    ensures request.freed ==> request.phase != C.InFlight
  {
    UnwrapErrIsSafe(word);
    if IsNull(word) {
      result := Success(());
    } else {
      var pointer := PointerTest(word);
      if pointer {
        result := Await(request, slot, waker);
      } else {
        result := FromPtr(word);
      }
    }
  }

  /** The dispatch of `am_send`, whose last branch unwraps the error out of the word. */
  method AwaitSend(word: Word, request: UcxRequest, slot: C.SlotId, waker: C.Waker)
    returns (result: Result<(), Error>)
    requires Answers(word, request.final)
    requires request.Valid() && !request.freed && request.callback
    modifies request
    ensures result == FromStatus(request.final)
    ensures request.freed <==> IsPtr(word)
    ensures request.freed ==> request.phase != C.InFlight
  {
    UnwrapErrIsSafe(word);
    if IsNull(word) {
      result := Success(());
    } else {
      var pointer := PointerTest(word);
      if pointer {
        result := Await(request, slot, waker);
      } else {
        var error := UnwrapErr(word);
        result := Failure(error);
      }
    }
  }

  /** The dispatch of `tag_send` and `stream_send`, which also report how much was sent. */
  method AwaitSized(word: Word, request: UcxRequest, slot: C.SlotId, waker: C.Waker, length: nat)
    returns (result: Result<nat, Error>)
    requires Answers(word, request.final)
    requires request.Valid() && !request.freed && request.callback
    modifies request
    ensures result == match FromStatus(request.final)
                      case Success(_) => Success(length)
                      case Failure(error) => Failure(error)
    ensures request.freed <==> IsPtr(word)
    ensures request.freed ==> request.phase != C.InFlight
  {
    UnwrapErrIsSafe(word);
    if !IsNull(word) {
      var pointer := PointerTest(word);
      if pointer {
        var awaited := Await(request, slot, waker);
        if awaited.Failure? {
          return Failure(awaited.error);
        }
      } else {
        var error := UnwrapErr(word);
        return Failure(error);
      }
    }
    result := Success(length);
  }

  /** `UCS_PTR_IS_PTR` where it is called: a build with overflow checks panics on null. */
  method PointerTest(word: Word) returns (pointer: bool)
    requires CheckedIsPtr(word).Some?
    ensures pointer == IsPtr(word)
  {
    pointer := CheckedIsPtr(word).value;
  }

  /** `Error::from_ptr(word).unwrap_err()`, which panics on anything but an error word. */
  method UnwrapErr(word: Word) returns (error: Error)
    requires FromPtr(word).Failure?
    ensures FromStatus(RawStatus(word)) == Failure(error)
  {
    UnwrapErrIsSafe(word);
    error := FromPtr(word).error;
  }
}
