/** The endpoint's methods on the record its clones share, with UCX's answers as arguments. */
module EndpointObject {
  import opened Wrappers
  import opened StatusWords
  import opened Requests
  import opened Endpoint
  import C = Completion

  class EndpointInner {
    var closed: bool
    var status: Status

    /** The weak references that UCX holds, and how many it gave back. */
    var weak: nat
    ghost var released: nat

    /** The closes that UCX was asked for, each by force or not. */
    ghost var asked: seq<bool>

    ghost function Abs(): Inner
      reads this
    {
      Inner(closed, status, weak, released)
    }

    ghost predicate Valid()
      reads this
    {
      WeakReferenceOk(Abs()) && StatusOk(Abs())
    }

    constructor ()
      ensures Abs() == NewInner() && Valid() && asked == []
    {
      closed, status, weak, released, asked := false, UCS_OK, 1, 0, [];
    }

    method Store(newStatus: Status)
      modifies this`status
      ensures Abs() == SetStatus(old(Abs()), newStatus)
      ensures status == if newStatus == UCS_OK then old(status) else newStatus
    {
      if newStatus != UCS_OK {
        status := newStatus;
      }
    }

    /** The compare-and-exchange lets only the first caller take the weak reference back. */
    method Closed()
      requires Valid()
      modifies this`closed, this`status, this`weak, this`released
      ensures Abs() == MarkClosed(old(Abs())) && Valid() && closed
    {
      if !closed {
        closed := true;
        weak, released := weak - 1, released + 1;
        Store(UCS_ERR_CONNECTION_RESET);
      }
    }

    method Check() returns (result: Result<(), Error>)
      ensures result == FromStatus(status)
    {
      result := FromStatus(status);
    }

    /** `ucp_ep_close_nb`, which must not get a handle that is marked closed. */
    method CloseNb(force: bool)
      requires !closed
      modifies this`asked
      ensures asked == old(asked) + [force]
    {
      asked := asked + [force];
    }
  }

  class EndpointHandle {
    const inner: EndpointInner

    constructor (inner: EndpointInner)
      ensures this.inner == inner
    {
      this.inner := inner;
    }

    /** `get_handle` lets nobody through once the endpoint is marked closed. */
    method GetHandle() returns (result: Result<(), Error>)
      requires inner.Valid()
      ensures result.Success? <==> inner.status == UCS_OK
      ensures result.Success? ==> !inner.closed
      ensures result.Failure? ==> result.error == Error(inner.status)
    {
      result := inner.Check();
    }

    /**
     `close`, polling alone. A gentle close of an endpoint with an error status is refused with that error,
     a forced one of a closed endpoint succeeds, both without asking UCX. Otherwise it reports how the
     operation ended, marks the endpoint exactly if it ended well, and if UCX made a request, waits until
     that is complete and frees it.
     */
    method Close(force: bool, word: Word, request: UcxRequest) returns (result: Result<(), Error>)
      requires inner.Valid()
      requires Answers(word, request.final) && request.Valid() && !request.freed
      modifies inner, request
      ensures inner.Valid()
      ensures if !force && old(inner.status) != UCS_OK then
                && result == Failure(Error(old(inner.status))) && inner.Abs() == old(inner.Abs())
                && !request.freed && inner.asked == old(inner.asked)
              else if force && old(inner.closed) then
                && result == Success(()) && inner.Abs() == old(inner.Abs())
                && !request.freed && inner.asked == old(inner.asked)
              else
                && inner.asked == old(inner.asked) + [force]
                && result == FromStatus(request.final)
                && (result.Success? ==> inner.closed && inner.status == UCS_ERR_CONNECTION_RESET)
                && inner.Abs() == (if result.Success? then MarkClosed(old(inner.Abs())) else old(inner.Abs()))
                && (request.freed <==> IsPtr(word))
                && (IsPtr(word) ==> request.phase != C.InFlight)
    {
      if force && inner.closed {
        return Success(());
      } else if !force {
        result := inner.Check();
        if result.Failure? {
          return;
        }
      }
      inner.CloseNb(force);
      if IsNull(word) {
        inner.Closed();
        return Success(());
      }
      var pointer := PointerTest(word);
      if !pointer {
        EncodeDecode(word);
        return FromStatus(RawStatus(word));
      }
      var p := PollNormal(request);
      while p == Pending
        invariant inner.asked == old(inner.asked) + [force] && (p.Ready? ==> request.phase != C.InFlight)
        invariant request.Valid() && !request.freed && inner.Abs() == old(inner.Abs())
        invariant p == if request.phase == C.InFlight then Pending else Ready(FromStatus(request.final))
        decreases request.phase == C.InFlight, request.remaining
      {
        var _ := request.Progress();
        p := PollNormal(request);
      }
      request.Free();
      result := p.value;
      if result.Success? {
        inner.Closed();
      }
    }

    /** `Drop`: any endpoint that goes, clone or not, closes the connection by force. */
    method Drop()
      requires inner.Valid()
      modifies inner
      ensures inner.Valid() && inner.closed
      ensures inner.Abs() == MarkClosed(old(inner.Abs()))
      ensures inner.asked == if old(inner.closed) then old(inner.asked) else old(inner.asked) + [true]
    {
      if !inner.closed {
        inner.CloseNb(true);
        inner.Closed();
      }
    }

    /** The error handler on an open endpoint: it records the status and keeps the weak reference. */
    method ErrorHandler(status: Status)
      requires inner.Valid() && !inner.closed
      modifies inner`status
      ensures inner.Valid()
      ensures inner.Abs() == SetStatus(old(inner.Abs()), status)
      ensures !inner.closed && inner.status == if status == UCS_OK then old(inner.status) else status
    {
      inner.Store(status);
    }
  }

  /** An operation after the error handler reported an error is refused with that error. */
  method OperateAfterError(handle: EndpointHandle, status: Status) returns (result: Result<(), Error>)
    requires handle.inner.Valid() && !handle.inner.closed && status != UCS_OK
    modifies handle.inner`status
    ensures result == Failure(Error(status)) && !handle.inner.closed
  {
    handle.ErrorHandler(status);
    result := handle.GetHandle();
  }

  /**
   `create`; `status` is UCX's answer. On failure the weak reference that was lent comes back at once and
   nothing is left of the record.
   */
  method Create(status: Status) returns (result: Result<EndpointHandle, Error>)
    ensures status == UCS_OK ==>
              && result.Success? && fresh(result.value) && fresh(result.value.inner)
              && result.value.inner.Abs() == NewInner() && result.value.inner.Valid()
    ensures status != UCS_OK ==> result == Failure(Error(status))
  {
    var inner := new EndpointInner();
    var created := FromStatus(status);
    if created.Failure? {
      inner.weak := inner.weak - 1;
      return Failure(created.error);
    }
    var handle := new EndpointHandle(inner);
    return Success(handle);
  }
}
