/**
 `Worker::am_stream` and `Worker::am_register` on the worker's map of streams and UCX's table of handlers,
 proved to be the steps of `AmWorker` that open a stream and set a handler.
 */
module AmRegistry {
  import opened Wrappers
  import opened StatusWords
  import opened AmWorker
  import S = AmStream

  type Stream = S.AmStreamInner<RawMsg>

  /** A handler as UCX stores it; the argument of a stream's handler is a raw pointer to the stream. */
  datatype Callback = ToStream(stream: Stream) | ToUser(handler: nat)

  // ---- What the machine sees of the objects ----

  /**
   A worker's map, UCX's table, the numbers that `AmWorker` gives to all streams ever opened, in the order
   they came, and the streams' contents.
   */
  datatype Registry = Registry(
    amStreams: map<AmId, Stream>,
    handlers: map<AmId, Callback>,
    numbers: map<Stream, InnerId>,
    next: InnerId,
    contents: map<Stream, S.Stream<RawMsg>>)

  /**
   The map holds exactly the streams that UCX points at, each under its own id and none unregistered; and
   every stream has its own number.
   */
  ghost predicate Consistent(r: Registry) {
    && r.contents.Keys == r.numbers.Keys
    && (forall id :: id in r.amStreams ==>
          && id in r.handlers && r.handlers[id] == ToStream(r.amStreams[id])
          && r.amStreams[id].id == id && r.amStreams[id] in r.numbers && !r.contents[r.amStreams[id]].unregistered)
    && (forall id :: id in r.handlers && r.handlers[id].ToStream? ==>
          id in r.amStreams && r.amStreams[id] == r.handlers[id].stream)
    && (forall s :: s in r.numbers ==> r.numbers[s] < r.next)
    && (forall s, t :: s in r.numbers && t in r.numbers && r.numbers[s] == r.numbers[t] ==> s == t)
  }

  predicate SameHandler(callback: Callback, handler: Handler, numbers: map<Stream, InnerId>) {
    match callback
    case ToUser(_) => handler == UserCallback
    case ToStream(s) => s in numbers && handler == StreamCallback(numbers[s])
  }

  ghost predicate HandlersMatched(r: Registry, w: World) {
    && w.handlers.Keys == r.handlers.Keys
    && (forall id :: id in r.handlers ==> SameHandler(r.handlers[id], w.handlers[id], r.numbers))
  }

  ghost predicate StreamsMatched(r: Registry, w: World) {
    && w.streams.Keys == r.amStreams.Keys
    && (forall id :: id in r.amStreams ==>
          && r.amStreams[id] in r.numbers && w.streams[id] == r.numbers[r.amStreams[id]]
          && w.streams[id] in w.inners && w.inners[w.streams[id]].id == id)
  }

  ghost predicate ContentsMatched(r: Registry, w: World) {
    && r.contents.Keys == r.numbers.Keys
    && (forall s :: s in r.numbers && r.numbers[s] in w.inners ==> w.inners[r.numbers[s]].stream == r.contents[s])
  }

  /** The same handlers and streams, by number, and the same contents in every stream that is alive. */
  ghost predicate Matches(r: Registry, w: World) {
    HandlersMatched(r, w) && StreamsMatched(r, w) && ContentsMatched(r, w) && w.nextInner == r.next
  }

  /** `am_register` once UCX has accepted: the stream it replaces, if any, is unregistered. */
  function Register(r: Registry, id: AmId, callback: Callback): Registry {
    r.(amStreams := r.amStreams - {id},
       handlers := r.handlers[id := callback],
       contents := if id in r.amStreams && r.amStreams[id] in r.contents
                   then r.contents[r.amStreams[id] := S.Unregister(r.contents[r.amStreams[id]])]
                   else r.contents)
  }

  /** `am_stream` on an id without a stream once UCX has accepted the new stream's callback. */
  function Publish(r: Registry, id: AmId, stream: Stream): Registry {
    r.(amStreams := r.amStreams[id := stream],
       handlers := r.handlers[id := ToStream(stream)],
       numbers := r.numbers[stream := r.next],
       next := r.next + 1,
       contents := r.contents[stream := S.NewStream()])
  }

  lemma OtherIdsOtherInners(r: Registry, w: World, id: AmId, other: AmId)
    requires StreamsMatched(r, w) && id in r.amStreams && other in r.amStreams && id != other
    ensures w.streams[id] != w.streams[other]
  {
  }

  /** What `AmWorker.Registered` does, as far as it matters here: at most the replaced stream goes. */
  ghost predicate Replaces(w: World, t: World, id: AmId, handler: Handler) {
    && t.handlers == w.handlers[id := handler] && t.streams == w.streams - {id} && t.nextInner == w.nextInner
    && (forall i :: i in w.inners && !(id in w.streams && w.streams[id] == i) ==>
          i in t.inners && t.inners[i] == w.inners[i])
    && (forall i :: i in t.inners && id in w.streams && w.streams[id] == i ==>
          i in w.inners && t.inners[i].stream == S.Unregister(w.inners[i].stream))
    && t.inners.Keys <= w.inners.Keys
  }

  lemma RegisteredReplaces(w: World, id: AmId, handler: Handler)
    requires id in w.streams ==> w.streams[id] in w.inners
    ensures Replaces(w, Registered(w, id, handler), id, handler)
  {
  }

  lemma HandlersStayMatched(r: Registry, w: World, t: World, id: AmId, handler: nat)
    requires HandlersMatched(r, w) && Replaces(w, t, id, UserCallback)
    ensures HandlersMatched(Register(r, id, ToUser(handler)), t)
  {
  }

  lemma StreamsStayMatched(r: Registry, w: World, t: World, id: AmId, callback: Callback)
    requires StreamsMatched(r, w) && Replaces(w, t, id, UserCallback)
    ensures StreamsMatched(Register(r, id, callback), t)
  {
    forall other | other in r.amStreams && id in r.amStreams && other != id
      ensures w.streams[id] != w.streams[other]
    {
      OtherIdsOtherInners(r, w, id, other);
    }
  }

  lemma ContentStaysMatched(r: Registry, w: World, t: World, id: AmId, callback: Callback, s: Stream)
    requires StreamsMatched(r, w) && ContentsMatched(r, w) && Replaces(w, t, id, UserCallback)
    requires s in r.numbers && r.numbers[s] in t.inners
    requires id in r.amStreams && r.numbers[r.amStreams[id]] == r.numbers[s] ==> r.amStreams[id] == s
    ensures t.inners[r.numbers[s]].stream == Register(r, id, callback).contents[s]
  {
    assert r.numbers[s] in w.inners;
    if id in r.amStreams && r.amStreams[id] == s {
      assert t.inners[r.numbers[s]].stream == S.Unregister(r.contents[s]);
    }
  }

  lemma ContentsStayMatched(r: Registry, w: World, t: World, id: AmId, callback: Callback)
    requires Consistent(r) && StreamsMatched(r, w) && ContentsMatched(r, w) && Replaces(w, t, id, UserCallback)
    ensures ContentsMatched(Register(r, id, callback), t)
  {
    forall s | s in r.numbers && r.numbers[s] in t.inners
      ensures t.inners[r.numbers[s]].stream == Register(r, id, callback).contents[s]
    {
      ContentStaysMatched(r, w, t, id, callback, s);
    }
  }

  lemma RegisterStaysConsistent(r: Registry, id: AmId, handler: nat)
    requires Consistent(r)
    ensures Consistent(Register(r, id, ToUser(handler)))
  {
  }

  lemma RegisterIsAStep(r: Registry, w: World, id: AmId, handler: nat)
    requires Consistent(r) && Matches(r, w)
    ensures Matches(Register(r, id, ToUser(handler)), Registered(w, id, UserCallback))
  {
    var t := Registered(w, id, UserCallback);
    RegisteredReplaces(w, id, UserCallback);
    HandlersStayMatched(r, w, t, id, handler);
    StreamsStayMatched(r, w, t, id, ToUser(handler));
    ContentsStayMatched(r, w, t, id, ToUser(handler));
  }

  /** What `AmWorker.Open` adds for a new stream. */
  ghost predicate Adds(w: World, t: World, id: AmId) {
    && t.handlers == w.handlers[id := StreamCallback(w.nextInner)]
    && t.streams == w.streams[id := w.nextInner] && t.nextInner == w.nextInner + 1
    && t.inners == w.inners[w.nextInner := Inner(id, S.NewStream(), 1)]
  }

  lemma OpenAdds(w: World, id: AmId)
    requires id !in w.streams
    ensures Adds(w, Open(w, id, true), id)
  {
  }

  lemma PublishedHandlersMatch(r: Registry, w: World, t: World, id: AmId, stream: Stream)
    requires HandlersMatched(r, w) && Adds(w, t, id) && w.nextInner == r.next && stream !in r.numbers
    ensures HandlersMatched(Publish(r, id, stream), t)
  {
  }

  lemma PublishedStreamsMatch(r: Registry, w: World, t: World, id: AmId, stream: Stream)
    requires Consistent(r) && StreamsMatched(r, w) && Adds(w, t, id) && w.nextInner == r.next && stream !in r.numbers
    ensures StreamsMatched(Publish(r, id, stream), t)
  {
  }

  lemma PublishedContentsMatch(r: Registry, w: World, t: World, id: AmId, stream: Stream)
    requires Consistent(r) && ContentsMatched(r, w) && Adds(w, t, id) && w.nextInner == r.next && stream !in r.numbers
    ensures ContentsMatched(Publish(r, id, stream), t)
  {
  }

  lemma PublishStaysConsistent(r: Registry, id: AmId, stream: Stream)
    requires Consistent(r) && id !in r.amStreams && stream !in r.numbers && stream.id == id
    ensures Consistent(Publish(r, id, stream))
  {
  }

  lemma PublishIsAStep(r: Registry, w: World, id: AmId, stream: Stream)
    requires Consistent(r) && Matches(r, w) && id !in r.amStreams && stream !in r.numbers
    ensures Matches(Publish(r, id, stream), Open(w, id, true))
  {
    OpenAdds(w, id);
    PublishedHandlersMatch(r, w, Open(w, id, true), id, stream);
    PublishedStreamsMatch(r, w, Open(w, id, true), id, stream);
    PublishedContentsMatch(r, w, Open(w, id, true), id, stream);
  }

  lemma SharingIsAStep(r: Registry, w: World, id: AmId, ok: bool)
    requires Matches(r, w) && (id in r.amStreams || !ok)
    ensures Matches(r, Open(w, id, ok))
  {
  }

  lemma OpeningIsAStep(r: Registry, t: Registry, id: AmId, ok: bool)
    requires Consistent(r)
    requires if id in r.amStreams || !ok then t == r
             else exists stream: Stream :: stream.id == id && stream !in r.numbers && t == Publish(r, id, stream)
    ensures Consistent(t)
    ensures forall w :: Matches(r, w) ==> Matches(t, Next(w, OpenStream(id, ok)).value)
  {
    if id in r.amStreams || !ok {
      forall w | Matches(r, w) ensures Matches(r, Open(w, id, ok)) {
        SharingIsAStep(r, w, id, ok);
      }
    } else {
      var stream: Stream :| stream.id == id && stream !in r.numbers && t == Publish(r, id, stream);
      PublishStaysConsistent(r, id, stream);
      forall w | Matches(r, w) ensures Matches(t, Open(w, id, ok)) {
        PublishIsAStep(r, w, id, stream);
      }
    }
  }

  // ---- The objects ----

  class Worker {
    var amStreams: map<AmId, Stream>

    /** UCX's table. */
    var handlers: map<AmId, Callback>

    ghost var numbers: map<Stream, InnerId>
    ghost var next: InnerId

    ghost function Abs(): Registry
      reads this, numbers.Keys
    {
      Registry(amStreams, handlers, numbers, next, map s | s in numbers :: s.Abs())
    }

    ghost predicate Valid()
      reads this, numbers.Keys
    {
      Consistent(Abs())
    }

    constructor ()
      ensures Valid() && Matches(Abs(), Init()) && amStreams == map[] && handlers == map[]
    {
      amStreams, handlers, numbers, next := map[], map[], map[], 0;
    }

    /** What follows once UCX has accepted a handler. */
    method Replace(id: AmId, callback: Callback)
      requires id in amStreams ==> amStreams[id] in numbers
      modifies this`amStreams, this`handlers, if id in amStreams then {amStreams[id]} else {}
      ensures Abs() == Register(old(Abs()), id, callback)
    {
      handlers := handlers[id := callback];
      if id in amStreams {
        var stream := amStreams[id];
        amStreams := amStreams - {id};
        stream.SetUnregistered();
        assert forall s :: s in numbers && s != stream ==> s.Abs() == old(s.Abs());
      }
    }

    /**
     `status` is UCX's answer. A refusal changes nothing; otherwise UCX has the new handler, and the stream
     it replaces is unregistered and out of the map, while every other stream stays as it is.
     */
    method AmRegister(id: AmId, callback: Callback, status: Status) returns (result: Result<(), Error>)
      requires Valid()
      modifies this`amStreams, this`handlers, if id in amStreams then {amStreams[id]} else {}
      ensures result == FromStatus(status)
      ensures Abs() == if result.Success? then Register(old(Abs()), id, callback) else old(Abs())
      ensures handlers == if result.Success? then old(handlers)[id := callback] else old(handlers)
      ensures amStreams == if result.Success? then old(amStreams) - {id} else old(amStreams)
      ensures result.Failure? || callback.ToUser? ==> Valid()
      ensures result.Failure? || callback.ToUser? ==>
                forall w :: Matches(old(Abs()), w) ==> Matches(Abs(), Next(w, SetHandler(id, result.Success?)).value)
    {
      result := FromStatus(status);
      if result.Success? {
        Replace(id, callback);
        if callback.ToUser? {
          RegisterStaysConsistent(old(Abs()), id, callback.handler);
        }
        forall w | callback.ToUser? && Matches(old(Abs()), w)
          ensures Matches(Abs(), Next(w, SetHandler(id, true)).value)
        {
          RegisterIsAStep(old(Abs()), w, id, callback.handler);
        }
      }
    }

    /** A stream that UCX has accepted goes into the map. */
    method Insert(id: AmId, stream: Stream)
      requires stream !in numbers && id !in amStreams && stream.id == id && stream.Abs() == S.NewStream()
      modifies this`amStreams, this`numbers, this`next
      ensures Abs() == old(Abs()).(
                amStreams := old(amStreams)[id := stream],
                numbers := old(numbers)[stream := old(next)],
                next := old(next) + 1,
                contents := old(Abs().contents)[stream := S.NewStream()])
    {
      amStreams := amStreams[id := stream];
      numbers, next := numbers[stream := next], next + 1;
    }

    /** A new stream, and UCX's answer to its callback. */
    method RegisterNew(id: AmId, status: Status) returns (stream: Stream, registered: Result<(), Error>)
      requires Valid() && id !in amStreams
      modifies this
      ensures fresh(stream) && stream.id == id && stream.Abs() == S.NewStream()
      ensures registered == FromStatus(status)
      ensures Abs() == if registered.Success? then Register(old(Abs()), id, ToStream(stream)) else old(Abs())
    {
      stream := new S.AmStreamInner<RawMsg>(id);
      registered := AmRegister(id, ToStream(stream), status);
    }

    /** A new stream is published only if UCX accepts its callback. */
    method OpenNew(id: AmId, status: Status) returns (result: Result<Stream, Error>)
      requires Valid() && id !in amStreams
      modifies this
      ensures status != UCS_OK ==> result == Failure(Error(status)) && Abs() == old(Abs())
      ensures status == UCS_OK ==>
                && result.Success? && fresh(result.value) && result.value.id == id
                && Abs() == Publish(old(Abs()), id, result.value)
    {
      var stream, registered := RegisterNew(id, status);
      if registered.Failure? {
        return Failure(registered.error);
      }
      assert Abs().numbers == old(Abs()).numbers && Abs().amStreams == old(Abs()).amStreams;
      Insert(id, stream);
      return Success(stream);
    }

    /** A stream that is open is shared. */
    method AmStream(id: AmId, status: Status) returns (result: Result<Stream, Error>)
      requires Valid()
      modifies this
      ensures Valid()
      ensures id in old(amStreams) ==> result == Success(old(amStreams)[id]) && Abs() == old(Abs())
      ensures id !in old(amStreams) && status != UCS_OK ==> result == Failure(Error(status)) && Abs() == old(Abs())
      ensures id !in old(amStreams) && status == UCS_OK ==>
                && result.Success? && fresh(result.value) && result.value.id == id
                && Abs() == Publish(old(Abs()), id, result.value)
      ensures forall w :: Matches(old(Abs()), w) ==> Matches(Abs(), Next(w, OpenStream(id, status == UCS_OK)).value)
    {
      if id in amStreams {
        result := Success(amStreams[id]);
      } else {
        result := OpenNew(id, status);
        assert status == UCS_OK ==> result.value !in old(numbers);
      }
      OpeningIsAStep(old(Abs()), Abs(), id, status == UCS_OK);
    }
  }
}
