/**
 All active-message state of one worker: the handlers UCX holds, the registry of streams, the streams
 with their queues and waiters, the messages users hold, and the buffers UCX lends.

 Each step is one call of the crate, one receive callback, or one poll or drop of a waiting call.
 */
module AmWorker {
  import opened Wrappers
  import opened Runs
  import opened StatusWords
  import opened Scatter
  import opened AmMessage
  import S = AmStream

  type AmId = id: int | 0 <= id < 0x1_0000
  type InnerId = nat
  type MsgId = nat

  /** What UCX calls for an id; the argument of a stream's callback is a raw pointer to its inner. */
  datatype Handler = StreamCallback(inner: InnerId) | UserCallback

  /** A queued or received message, reduced to its data. */
  datatype RawMsg = RawMsg(id: AmId, data: Option<AmData>)

  /** A live `AmStreamInner` with the number of `AmStream`s that share it. */
  datatype Inner = Inner(id: AmId, stream: S.Stream<RawMsg>, handles: nat)

  /** Where a retained buffer is. A queued one is told by its stream and its place among all pushes. */
  datatype Place =
    | Queued(inner: InnerId, index: nat)
    | Held(msg: MsgId)
    | Released
    | Handed
    | Forgotten

  /** `place` is history: it follows every buffer the callback retained. `misuse` is set by any dangling access. */
  datatype World = World(
    handlers: map<AmId, Handler>,
    streams: map<AmId, InnerId>,
    inners: map<InnerId, Inner>,
    nextInner: InnerId,
    msgs: map<MsgId, RawMsg>,
    ucx: UcxSide,
    place: map<BufId, Place>,
    misuse: bool)

  datatype Step =
    | OpenStream(id: AmId, ok: bool)
    | SetHandler(id: AmId, ok: bool)
    | CloneHandle(inner: InnerId)
    | DropHandle(inner: InnerId)
    | Deliver(id: AmId, buf: BufId, bytes: seq<Byte>, attr: bv64)
    | PollWait(inner: InnerId, waiter: S.Waiter, msg: MsgId)
    | CancelWait(inner: InnerId, waiter: S.Waiter)
    | Receive(msg: MsgId, fits: bool, word: Word)
    | DropMsg(msg: MsgId)

  function Init(): World {
    World(map[], map[], map[], 0, map[], UcxSide(map[], [], []), map[], false)
  }

  // ---- Registration ----

  /** The buffers of the messages still in a queue. */
  function QueueBuffers(queue: seq<RawMsg>): set<BufId> {
    set k | 0 <= k < |queue| && Buffer(queue[k].data).Some? :: Buffer(queue[k].data).value
  }

  /** The last reference to an inner goes: its queued messages vanish without releasing anything. */
  function Destroy(w: World, i: InnerId): World
    requires i in w.inners
  {
    var lost := QueueBuffers(w.inners[i].stream.queue);
    w.(inners := w.inners - {i},
       place := map b | b in w.place :: if b in lost then Forgotten else w.place[b])
  }

  function SetInner(w: World, i: InnerId, inner: Inner): World {
    w.(inners := w.inners[i := inner])
  }

  function SetStream(w: World, i: InnerId, stream: S.Stream<RawMsg>): World
    requires i in w.inners
  {
    SetInner(w, i, w.inners[i].(stream := stream))
  }

  /**
   The end of a successful `am_register`: UCX has the handler, and the stream it replaces, if any, is
   unregistered and leaves the registry.
   */
  function Registered(w: World, id: AmId, handler: Handler): World {
    var known := w.(handlers := w.handlers[id := handler]);
    if id !in w.streams then known
    else if w.streams[id] !in w.inners then known.(misuse := true)
    else
      var i := w.streams[id];
      var removed := SetStream(known.(streams := w.streams - {id}), i, S.Unregister(w.inners[i].stream));
      if w.inners[i].handles == 0 then Destroy(removed, i) else removed
  }

  /**
   `am_stream`: the registered stream if there is one, else a new one, published once UCX has accepted its
   callback.
   */
  function Open(w: World, id: AmId, ok: bool): World {
    if id in w.streams then
      var i := w.streams[id];
      if i in w.inners then SetInner(w, i, w.inners[i].(handles := w.inners[i].handles + 1)) else w.(misuse := true)
    else if !ok then
      w
    else
      var newest := w.nextInner;
      var known := Registered(w, id, StreamCallback(newest));
      known.(streams := known.streams[id := newest],
             inners := known.inners[newest := Inner(id, S.NewStream(), 1)],
             nextInner := newest + 1)
  }

  /** An `AmStream` is dropped; the inner goes with the last one unless the registry still has it. */
  function DropOne(w: World, i: InnerId): World
    requires i in w.inners && w.inners[i].handles > 0
  {
    var inner := w.inners[i].(handles := w.inners[i].handles - 1);
    var dropped := SetInner(w, i, inner);
    var kept := inner.id in w.streams && w.streams[inner.id] == i;
    if inner.handles == 0 && !kept then Destroy(dropped, i) else dropped
  }

  // ---- Messages ----

  /** The stream's receive callback: the message is queued, and its buffer is kept if the answer says so. */
  function Enqueue(w: World, i: InnerId, id: AmId, buf: BufId, bytes: seq<Byte>, attr: bv64): World
    requires i in w.inners
  {
    var stream := w.inners[i].stream;
    var pushed := SetStream(w, i, S.Push(stream, RawMsg(id, FromRaw(buf, bytes, attr))));
    if CallbackAnswer(attr) == UCS_OK then pushed
    else
      pushed.(ucx := w.ucx.(lent := w.ucx.lent[buf := bytes]),
              place := w.place[buf := if bytes == [] then Forgotten else Queued(i, |stream.pushed|)])
  }

  /** UCX receives a message for `id` and calls the handler. An unhandled message is dropped by UCX. */
  function Arrive(w: World, id: AmId, buf: BufId, bytes: seq<Byte>, attr: bv64): World {
    if id !in w.handlers || w.handlers[id].UserCallback? then w
    else if w.handlers[id].inner !in w.inners then w.(misuse := true)
    else Enqueue(w, w.handlers[id].inner, id, buf, bytes, attr)
  }

  /** A poll of `wait_msg`; a message it returns is held as `m`. */
  function Poll(w: World, i: InnerId, waiter: S.Waiter, m: MsgId): World
    requires i in w.inners
  {
    var (stream, told) := S.PollWait(w.inners[i].stream, waiter);
    var polled := SetStream(w, i, stream);
    if told.Ready? && told.value.Some? then
      Hold(polled, m, told.value.value)
    else
      polled
  }

  /** A message passes into the hands of the user. */
  function Hold(w: World, m: MsgId, raw: RawMsg): World {
    var held := w.(msgs := w.msgs[m := raw]);
    match Buffer(raw.data)
    case Some(b) => held.(place := w.place[b := Held(m)])
    case None => held
  }

  function PlaceAfter(place: map<BufId, Place>, effect: Effect): map<BufId, Place> {
    match effect
    case Nothing => place
    case Release(b) => place[b := Released]
    case HandOver(b) => place[b := Handed]
    case Forget(b) => place[b := Forgotten]
  }

  /** The data of a message is taken, with the given effect on its buffer. */
  function Take(w: World, m: MsgId, effect: Effect): World
    requires m in w.msgs
  {
    if !Backed(w.msgs[m].data, w.ucx) then w.(misuse := true)
    else
      w.(msgs := w.msgs[m := w.msgs[m].(data := None)],
         ucx := After(w.ucx, effect),
         place := PlaceAfter(w.place, effect))
  }

  function Drop(w: World, m: MsgId): World
    requires m in w.msgs
  {
    var taken := Take(w, m, DropEffect(w.msgs[m].data));
    taken.(msgs := taken.msgs - {m})
  }

  // ---- Steps ----

  /** Waiting calls borrow an `AmStream`, so the last one cannot go while a call is pending. */
  predicate Unborrowed(inner: Inner) {
    inner.stream.notify.waiting == [] && inner.stream.notify.notified == {}
  }

  predicate Enabled(w: World, step: Step) {
    match step
    case OpenStream(_, _) => true
    case SetHandler(_, _) => true
    case CloneHandle(i) => i in w.inners && w.inners[i].handles > 0
    case DropHandle(i) =>
      i in w.inners && w.inners[i].handles > 0 && (w.inners[i].handles == 1 ==> Unborrowed(w.inners[i]))
    case Deliver(_, buf, _, _) => buf !in w.place && buf !in w.ucx.lent
    case PollWait(i, _, m) => i in w.inners && w.inners[i].handles > 0 && m !in w.msgs
    case CancelWait(i, waiter) =>
      i in w.inners && w.inners[i].handles > 0 &&
      (waiter in w.inners[i].stream.notify.waiting || waiter in w.inners[i].stream.notify.notified)
    case Receive(m, _, _) => m in w.msgs
    case DropMsg(m) => m in w.msgs
  }

  function Next(w: World, step: Step): Option<World> {
    if !Enabled(w, step) then None else
      Some(match step
           case OpenStream(id, ok) => Open(w, id, ok)
           case SetHandler(id, ok) => if ok then Registered(w, id, UserCallback) else w
           case CloneHandle(i) => SetInner(w, i, w.inners[i].(handles := w.inners[i].handles + 1))
           case DropHandle(i) => DropOne(w, i)
           case Deliver(id, buf, bytes, attr) => Arrive(w, id, buf, bytes, attr)
           case PollWait(i, waiter, m) => Poll(w, i, waiter, m)
           case CancelWait(i, waiter) => SetStream(w, i, S.Cancel(w.inners[i].stream, waiter))
           case Receive(m, fits, word) => Take(w, m, ReceiveEffect(w.msgs[m].data, fits, word))
           case DropMsg(m) => Drop(w, m))
  }

  // ---- What holds after every step ----

  predicate IsRegistered(w: World, i: InnerId)
    requires i in w.inners
  {
    w.inners[i].id in w.streams && w.streams[w.inners[i].id] == i
  }

  /**
   The step gives up the last reference to a stream: an `AmStream`, when the registry no longer has the
   stream, or the registry's own, when no `AmStream` is left.
   */
  predicate LastReferenceGoes(w: World, step: Step, i: InnerId)
    requires i in w.inners
  {
    || (step == DropHandle(i) && w.inners[i].handles == 1 && !IsRegistered(w, i))
    || (step == SetHandler(w.inners[i].id, true) && w.inners[i].handles == 0 && IsRegistered(w, i))
  }

  /**
   An id is in the registry exactly when UCX's handler for it is a stream callback, and then with the same
   live stream.
   */
  ghost predicate HandlersMatch(w: World) {
    && (forall id :: id in w.streams ==>
          && id in w.handlers && w.handlers[id] == StreamCallback(w.streams[id])
          && w.streams[id] in w.inners && w.inners[w.streams[id]].id == id)
    && (forall id :: id in w.handlers && w.handlers[id].StreamCallback? ==>
          id in w.streams && w.streams[id] == w.handlers[id].inner)
  }

  /**
   A live stream is unregistered exactly when the registry does not have it, and is referred to, save for
   the exempt.
   */
  ghost predicate InnersMatch(w: World, exempt: set<InnerId>) {
    forall i :: i in w.inners ==>
      && i < w.nextInner
      && (w.inners[i].stream.unregistered <==> !IsRegistered(w, i))
      && (w.inners[i].handles == 0 && i !in exempt ==> IsRegistered(w, i))
  }

  /** The registry and UCX agree on every id, and every pointer UCX holds is to a live stream. */
  ghost predicate RegistryAgrees(w: World) {
    HandlersMatch(w) && InnersMatch(w, {})
  }

  ghost predicate StreamsSafe(w: World) {
    forall i :: i in w.inners ==>
      && S.Inv(w.inners[i].stream)
      && (w.inners[i].handles == 0 ==> Unborrowed(w.inners[i]))
  }

  /** How often UCX got a buffer back by each way. */
  predicate Returned(ucx: UcxSide, b: BufId, releases: nat, handovers: nat) {
    multiset(ucx.released)[b] == releases && multiset(ucx.handed)[b] == handovers
  }

  /** The buffer of the n-th message ever pushed on a stream, while that message is queued. */
  predicate QueuedAt(w: World, i: InnerId, n: nat, b: BufId) {
    && i in w.inners
    && |w.inners[i].stream.returned| <= n < |w.inners[i].stream.pushed|
    && Buffer(w.inners[i].stream.pushed[n].data) == Some(b)
  }

  predicate HeldBy(w: World, m: MsgId, b: BufId) {
    m in w.msgs && Buffer(w.msgs[m].data) == Some(b)
  }

  /** UCX lends the buffer, and it is as long as the message says. */
  predicate Lends(ucx: UcxSide, b: BufId, data: Option<AmData>) {
    b in ucx.lent && data.Some? && |ucx.lent[b]| == data.value.Len()
  }

  /** A buffer is where its place says, and UCX's records agree. */
  ghost predicate PlaceIsRight(w: World, b: BufId)
    requires b in w.place
  {
    match w.place[b]
    case Queued(i, n) =>
      QueuedAt(w, i, n, b) && Lends(w.ucx, b, w.inners[i].stream.pushed[n].data) && Returned(w.ucx, b, 0, 0)
    case Held(m) =>
      HeldBy(w, m, b) && Lends(w.ucx, b, w.msgs[m].data) && Returned(w.ucx, b, 0, 0)
    case Released => b !in w.ucx.lent && Returned(w.ucx, b, 1, 0)
    case Handed => b !in w.ucx.lent && Returned(w.ucx, b, 0, 1)
    case Forgotten => b in w.ucx.lent && Returned(w.ucx, b, 0, 0)
  }

  /**
   Conservation: every buffer the callback ever retained is queued once, held by one message, released
   once, handed over once, or forgotten; and no queue or message has a buffer that is elsewhere.
   */
  ghost predicate BuffersConserved(w: World) {
    && (forall b :: b in w.place ==> PlaceIsRight(w, b))
    && (forall i, n, b :: QueuedAt(w, i, n, b) ==> b in w.place && w.place[b] == Queued(i, n))
    && (forall m, b :: HeldBy(w, m, b) ==> b in w.place && w.place[b] == Held(m))
    && (forall b :: b !in w.place ==> b !in w.ucx.lent && Returned(w.ucx, b, 0, 0))
  }

  ghost predicate Inv(w: World) {
    !w.misuse && RegistryAgrees(w) && StreamsSafe(w) && BuffersConserved(w)
  }

  // ---- Conservation, one change at a time ----

  /** No queue gains or loses a message. */
  ghost predicate SameQueues(w: World, t: World) {
    && (forall i :: i in w.inners ==>
          && i in t.inners
          && t.inners[i].stream.pushed == w.inners[i].stream.pushed
          && t.inners[i].stream.returned == w.inners[i].stream.returned)
    && (forall i :: i in t.inners && i !in w.inners ==> t.inners[i].stream.pushed == [])
  }

  lemma SameQueuesConserve(w: World, t: World)
    requires BuffersConserved(w) && SameQueues(w, t)
    requires t.place == w.place && t.ucx == w.ucx && t.msgs == w.msgs
    ensures BuffersConserved(t)
  {
    forall b | b in t.place ensures PlaceIsRight(t, b) {
      assert PlaceIsRight(w, b);
    }
    forall i, n, b | QueuedAt(t, i, n, b) ensures b in t.place && t.place[b] == Queued(i, n) {
      assert QueuedAt(w, i, n, b);
    }
    forall m, b | HeldBy(t, m, b) ensures b in t.place && t.place[b] == Held(m) {
      assert HeldBy(w, m, b);
    }
  }

  /** The buffers of a queue are those of the pushes that were not returned yet. */
  lemma QueueIsTheRest(w: World, i: InnerId, b: BufId)
    requires i in w.inners && S.Fifo(w.inners[i].stream)
    ensures b in QueueBuffers(w.inners[i].stream.queue) <==> exists n: nat :: QueuedAt(w, i, n, b)
  {
    var s := w.inners[i].stream;
    if b in QueueBuffers(s.queue) {
      var k :| 0 <= k < |s.queue| && Buffer(s.queue[k].data) == Some(b);
      assert s.pushed[|s.returned| + k] == s.queue[k];
      assert QueuedAt(w, i, |s.returned| + k, b);
    }
    if n: nat :| QueuedAt(w, i, n, b) {
      assert s.pushed[n] == s.queue[n - |s.returned|];
    }
  }

  lemma DestroyConserves(w: World, i: InnerId)
    requires BuffersConserved(w) && i in w.inners && S.Fifo(w.inners[i].stream)
    ensures BuffersConserved(Destroy(w, i))
  {
    var t := Destroy(w, i);
    forall b | b in t.place ensures PlaceIsRight(t, b) {
      assert PlaceIsRight(w, b);
      QueueIsTheRest(w, i, b);
    }
    forall j, n, b | QueuedAt(t, j, n, b) ensures b in t.place && t.place[b] == Queued(j, n) {
      assert QueuedAt(w, j, n, b);
      QueueIsTheRest(w, i, b);
    }
    forall m, b | HeldBy(t, m, b) ensures b in t.place && t.place[b] == Held(m) {
      assert HeldBy(w, m, b);
      QueueIsTheRest(w, i, b);
    }
  }

  /** A push adds one queued message, at the end. */
  lemma PushQueues(w: World, i: InnerId, raw: RawMsg, j: InnerId, n: nat, b: BufId)
    requires i in w.inners && S.Fifo(w.inners[i].stream)
    ensures QueuedAt(SetStream(w, i, S.Push(w.inners[i].stream, raw)), j, n, b) <==>
            QueuedAt(w, j, n, b) ||
            (j == i && n == |w.inners[i].stream.pushed| && Buffer(raw.data) == Some(b))
  {
  }

  lemma EnqueueConserves(w: World, i: InnerId, id: AmId, buf: BufId, bytes: seq<Byte>, attr: bv64)
    requires BuffersConserved(w) && i in w.inners && S.Fifo(w.inners[i].stream)
    requires buf !in w.place
    ensures BuffersConserved(Enqueue(w, i, id, buf, bytes, attr))
  {
    var t := Enqueue(w, i, id, buf, bytes, attr);
    var raw := RawMsg(id, FromRaw(buf, bytes, attr));
    var last := |w.inners[i].stream.pushed|;
    ClassificationAgrees(buf, bytes, attr);
    assert Returned(w.ucx, buf, 0, 0);
    forall b | b in t.place ensures PlaceIsRight(t, b) {
      if b != buf {
        assert PlaceIsRight(w, b);
      } else if bytes != [] {
        PushQueues(w, i, raw, i, last, b);
      }
    }
    forall j, n: nat, b | QueuedAt(t, j, n, b) ensures b in t.place && t.place[b] == Queued(j, n) {
      PushQueues(w, i, raw, j, n, b);
    }
    forall m, b | HeldBy(t, m, b) ensures b in t.place && t.place[b] == Held(m) {
      assert HeldBy(w, m, b);
    }
  }

  /** The first queued message passes from the stream to the user. */
  ghost predicate Passes(w: World, i: InnerId, stream: S.Stream<RawMsg>, m: MsgId, raw: RawMsg) {
    && i in w.inners && m !in w.msgs
    && stream.pushed == w.inners[i].stream.pushed
    && stream.returned == w.inners[i].stream.returned + [raw]
    && stream.returned <= stream.pushed
  }

  lemma PassedBufferWasQueued(w: World, i: InnerId, stream: S.Stream<RawMsg>, m: MsgId, raw: RawMsg)
    requires BuffersConserved(w) && Passes(w, i, stream, m, raw) && Buffer(raw.data).Some?
    ensures var b := Buffer(raw.data).value;
            && b in w.place && w.place[b] == Queued(i, |w.inners[i].stream.returned|)
            && Lends(w.ucx, b, raw.data) && Returned(w.ucx, b, 0, 0)
  {
    assert stream.pushed[|w.inners[i].stream.returned|] == raw;
    assert QueuedAt(w, i, |w.inners[i].stream.returned|, Buffer(raw.data).value);
  }

  lemma HoldKeepsPlaces(w: World, i: InnerId, stream: S.Stream<RawMsg>, m: MsgId, raw: RawMsg, b: BufId)
    requires BuffersConserved(w) && Passes(w, i, stream, m, raw)
    requires b in Hold(SetStream(w, i, stream), m, raw).place
    ensures PlaceIsRight(Hold(SetStream(w, i, stream), m, raw), b)
  {
    if Buffer(raw.data).Some? {
      PassedBufferWasQueued(w, i, stream, m, raw);
    }
    assert PlaceIsRight(w, b);
  }

  lemma HoldConserves(w: World, i: InnerId, stream: S.Stream<RawMsg>, m: MsgId, raw: RawMsg)
    requires BuffersConserved(w) && Passes(w, i, stream, m, raw)
    ensures BuffersConserved(Hold(SetStream(w, i, stream), m, raw))
  {
    var t := Hold(SetStream(w, i, stream), m, raw);
    if Buffer(raw.data).Some? {
      PassedBufferWasQueued(w, i, stream, m, raw);
    }
    forall b | b in t.place ensures PlaceIsRight(t, b) {
      HoldKeepsPlaces(w, i, stream, m, raw, b);
    }
    forall j, n: nat, b | QueuedAt(t, j, n, b) ensures b in t.place && t.place[b] == Queued(j, n) {
      assert QueuedAt(w, j, n, b);
    }
    forall k, b | HeldBy(t, k, b) ensures b in t.place && t.place[b] == Held(k) {
      assert k == m || HeldBy(w, k, b);
    }
  }

  lemma PollConserves(w: World, i: InnerId, waiter: S.Waiter, m: MsgId)
    requires BuffersConserved(w) && i in w.inners && S.Fifo(w.inners[i].stream) && m !in w.msgs
    ensures BuffersConserved(Poll(w, i, waiter, m))
  {
    var s := w.inners[i].stream;
    var (stream, told) := S.PollWait(s, waiter);
    if told.Ready? && told.value.Some? {
      assert s.pushed == s.returned + s.queue;
      HoldConserves(w, i, stream, m, told.value.value);
    } else {
      SameQueuesConserve(w, Poll(w, i, waiter, m));
    }
  }

  /** The effect is on the buffer of the message, if it has one. */
  predicate Settles(effect: Effect, data: Option<AmData>) {
    if effect == Nothing then Buffer(data) == None else Buffer(data) == Some(effect.buf)
  }

  lemma HeldBuffersAreLent(w: World, m: MsgId)
    requires BuffersConserved(w) && m in w.msgs
    ensures Backed(w.msgs[m].data, w.ucx)
    ensures match Buffer(w.msgs[m].data)
            case Some(b) => b in w.place && w.place[b] == Held(m) && Returned(w.ucx, b, 0, 0)
            case None => true
  {
    if Buffer(w.msgs[m].data).Some? {
      assert HeldBy(w, m, Buffer(w.msgs[m].data).value);
    }
  }

  lemma TakeKeepsPlaces(w: World, m: MsgId, effect: Effect, b: BufId)
    requires BuffersConserved(w) && m in w.msgs && Settles(effect, w.msgs[m].data)
    requires b in Take(w, m, effect).place
    ensures PlaceIsRight(Take(w, m, effect), b)
  {
    HeldBuffersAreLent(w, m);
    assert PlaceIsRight(w, b);
  }

  /** Taking the data of a message settles its buffer, and no other. */
  lemma TakeConserves(w: World, m: MsgId, effect: Effect)
    requires BuffersConserved(w) && m in w.msgs && Settles(effect, w.msgs[m].data)
    ensures Take(w, m, effect).misuse == w.misuse && BuffersConserved(Take(w, m, effect))
  {
    var t := Take(w, m, effect);
    HeldBuffersAreLent(w, m);
    forall b | b in t.place ensures PlaceIsRight(t, b) {
      TakeKeepsPlaces(w, m, effect, b);
    }
    forall j, n: nat, b | QueuedAt(t, j, n, b) ensures b in t.place && t.place[b] == Queued(j, n) {
      assert QueuedAt(w, j, n, b);
    }
    forall k, b | HeldBy(t, k, b) ensures b in t.place && t.place[b] == Held(k) {
      assert HeldBy(w, k, b);
    }
  }

  lemma ForgetMessageConserves(w: World, m: MsgId)
    requires BuffersConserved(w) && m in w.msgs && Buffer(w.msgs[m].data) == None
    ensures BuffersConserved(w.(msgs := w.msgs - {m}))
  {
    var t := w.(msgs := w.msgs - {m});
    forall b | b in t.place ensures PlaceIsRight(t, b) {
      assert PlaceIsRight(w, b);
    }
    forall j, n, b | QueuedAt(t, j, n, b) ensures b in t.place && t.place[b] == Queued(j, n) {
      assert QueuedAt(w, j, n, b);
    }
    forall k, b | HeldBy(t, k, b) ensures b in t.place && t.place[b] == Held(k) {
      assert HeldBy(w, k, b);
    }
  }

  // ---- Registration and streams, one step at a time ----

  ghost predicate ControlOk(w: World) {
    !w.misuse && RegistryAgrees(w) && StreamsSafe(w)
  }

  /** The registry is in order, but nothing need refer to `i`. */
  ghost predicate RegistryAgreesBut(w: World, i: InnerId) {
    HandlersMatch(w) && InnersMatch(w, {i})
  }

  lemma NothingElseMissing(w: World, i: InnerId)
    requires RegistryAgreesBut(w, i) && (i in w.inners && w.inners[i].handles == 0 ==> IsRegistered(w, i))
    ensures RegistryAgrees(w)
  {
  }

  lemma DestroyKeepsRegistry(w: World, i: InnerId)
    requires RegistryAgreesBut(w, i) && i in w.inners && !IsRegistered(w, i)
    ensures RegistryAgrees(Destroy(w, i))
  {
  }

  lemma UnregisteringKeepsRegistry(w: World, id: AmId)
    requires RegistryAgrees(w) && id in w.streams
    ensures var i := w.streams[id];
            var t := SetStream(
              w.(handlers := w.handlers[id := UserCallback], streams := w.streams - {id}), i,
              S.Unregister(w.inners[i].stream));
            RegistryAgreesBut(t, i) && !IsRegistered(t, i)
  {
  }

  lemma RegisteredKeepsRegistry(w: World, id: AmId)
    requires !w.misuse && RegistryAgrees(w)
    ensures var t := Registered(w, id, UserCallback); !t.misuse && RegistryAgrees(t)
  {
    if id in w.streams {
      UnregisteringKeepsRegistry(w, id);
      var i := w.streams[id];
      var known := w.(handlers := w.handlers[id := UserCallback], streams := w.streams - {id});
      var removed := SetStream(known, i, S.Unregister(w.inners[i].stream));
      if w.inners[i].handles == 0 {
        DestroyKeepsRegistry(removed, i);
      } else {
        NothingElseMissing(removed, i);
      }
    }
  }

  lemma OpenKeepsRegistry(w: World, id: AmId, ok: bool)
    requires !w.misuse && RegistryAgrees(w)
    ensures var t := Open(w, id, ok); !t.misuse && RegistryAgrees(t)
  {
    assert id in w.streams ==> w.streams[id] in w.inners;
  }

  lemma HandlesKeepRegistry(w: World, i: InnerId, handles: nat)
    requires RegistryAgrees(w) && i in w.inners
    ensures RegistryAgreesBut(SetInner(w, i, w.inners[i].(handles := handles)), i)
  {
  }

  lemma DropHandleKeepsRegistry(w: World, i: InnerId)
    requires !w.misuse && RegistryAgrees(w) && Enabled(w, DropHandle(i))
    ensures var t := DropOne(w, i); !t.misuse && RegistryAgrees(t)
  {
    var handles := w.inners[i].handles - 1;
    var dropped := SetInner(w, i, w.inners[i].(handles := handles));
    HandlesKeepRegistry(w, i, handles);
    if handles == 0 && !IsRegistered(dropped, i) {
      DestroyKeepsRegistry(dropped, i);
    } else {
      NothingElseMissing(dropped, i);
    }
  }

  /** A step that changes one stream, but not whether it is unregistered, keeps the registry in order. */
  lemma SetStreamKeepsRegistry(w: World, i: InnerId, stream: S.Stream<RawMsg>)
    requires RegistryAgrees(w) && i in w.inners
    requires stream.unregistered == w.inners[i].stream.unregistered
    ensures RegistryAgrees(SetStream(w, i, stream))
  {
  }

  lemma SetStreamKeepsStreams(w: World, i: InnerId, stream: S.Stream<RawMsg>)
    requires StreamsSafe(w) && i in w.inners
    requires S.Inv(stream) && (w.inners[i].handles == 0 ==> Unborrowed(w.inners[i].(stream := stream)))
    ensures StreamsSafe(SetStream(w, i, stream))
  {
  }

  /** Adding, removing and unregistering streams leaves the streams themselves in order. */
  lemma RegisteredKeepsStreams(w: World, id: AmId)
    requires StreamsSafe(w)
    ensures StreamsSafe(Registered(w, id, UserCallback))
  {
    if id in w.streams && w.streams[id] in w.inners {
      var i := w.streams[id];
      SetStreamKeepsStreams(w, i, S.Unregister(w.inners[i].stream));
    }
  }

  lemma OpenKeepsStreams(w: World, id: AmId, ok: bool)
    requires StreamsSafe(w)
    ensures StreamsSafe(Open(w, id, ok))
  {
  }

  lemma DropHandleKeepsStreams(w: World, i: InnerId)
    requires StreamsSafe(w) && Enabled(w, DropHandle(i))
    ensures StreamsSafe(DropOne(w, i))
  {
  }

  /** Messages, buffers and their history are no part of either. */
  lemma SameControl(w: World, t: World)
    requires ControlOk(w)
    requires t.handlers == w.handlers && t.streams == w.streams && t.inners == w.inners
    requires t.nextInner == w.nextInner && t.misuse == w.misuse
    ensures ControlOk(t)
  {
  }

  lemma ArriveKeepsControl(w: World, id: AmId, buf: BufId, bytes: seq<Byte>, attr: bv64)
    requires ControlOk(w)
    ensures ControlOk(Arrive(w, id, buf, bytes, attr))
  {
    if id in w.handlers && w.handlers[id].StreamCallback? {
      var i := w.handlers[id].inner;
      var s := w.inners[i].stream;
      var raw := RawMsg(id, FromRaw(buf, bytes, attr));
      S.PushKeepsInv(s, raw);
      SetStreamKeepsRegistry(w, i, S.Push(s, raw));
      SetStreamKeepsStreams(w, i, S.Push(s, raw));
      SameControl(SetStream(w, i, S.Push(s, raw)), Enqueue(w, i, id, buf, bytes, attr));
    }
  }

  /** A poll or a cancellation only changes its own stream, and never registers or unregisters it. */
  lemma WaiterKeepsControl(w: World, i: InnerId, stream: S.Stream<RawMsg>)
    requires ControlOk(w) && i in w.inners && w.inners[i].handles > 0
    requires S.Inv(stream) && stream.unregistered == w.inners[i].stream.unregistered
    ensures ControlOk(SetStream(w, i, stream))
  {
    SetStreamKeepsRegistry(w, i, stream);
    SetStreamKeepsStreams(w, i, stream);
  }

  lemma PollIsControlledByItsStream(w: World, i: InnerId, waiter: S.Waiter, m: MsgId)
    requires i in w.inners
    ensures var t, c := Poll(w, i, waiter, m), SetStream(w, i, S.PollWait(w.inners[i].stream, waiter).0);
            && t.handlers == c.handlers && t.streams == c.streams && t.inners == c.inners
            && t.nextInner == c.nextInner && t.misuse == c.misuse
  {
  }

  lemma PollKeepsControl(w: World, i: InnerId, waiter: S.Waiter, m: MsgId)
    requires ControlOk(w) && i in w.inners && w.inners[i].handles > 0
    ensures ControlOk(Poll(w, i, waiter, m))
  {
    PollKeepsStream(w.inners[i].stream, waiter);
    WaiterKeepsControl(w, i, S.PollWait(w.inners[i].stream, waiter).0);
    PollIsControlledByItsStream(w, i, waiter, m);
    SameControl(SetStream(w, i, S.PollWait(w.inners[i].stream, waiter).0), Poll(w, i, waiter, m));
  }

  lemma CancelKeepsStream(s: S.Stream<RawMsg>, waiter: S.Waiter)
    requires S.Inv(s)
    ensures S.Inv(S.Cancel(s, waiter)) && S.Cancel(s, waiter).unregistered == s.unregistered
  {
    S.CancelKeepsInv(s, waiter);
  }

  lemma CancelConserves(w: World, i: InnerId, waiter: S.Waiter)
    requires BuffersConserved(w) && i in w.inners
    ensures BuffersConserved(SetStream(w, i, S.Cancel(w.inners[i].stream, waiter)))
  {
    SameQueuesConserve(w, SetStream(w, i, S.Cancel(w.inners[i].stream, waiter)));
  }

  lemma PollKeepsStream(s: S.Stream<RawMsg>, waiter: S.Waiter)
    requires S.Inv(s)
    ensures S.Inv(S.PollWait(s, waiter).0) && S.PollWait(s, waiter).0.unregistered == s.unregistered
  {
    S.PollKeepsInv(s, waiter);
  }

  lemma HandlesKeepControl(w: World, i: InnerId, handles: nat)
    requires ControlOk(w) && i in w.inners && handles > 0
    ensures ControlOk(SetInner(w, i, w.inners[i].(handles := handles)))
  {
    var t := SetInner(w, i, w.inners[i].(handles := handles));
    HandlesKeepRegistry(w, i, handles);
    NothingElseMissing(t, i);
  }

  // ---- Steps ----

  lemma RegisteredConserves(w: World, id: AmId)
    requires Inv(w)
    ensures BuffersConserved(Registered(w, id, UserCallback))
  {
    if id !in w.streams {
      SameQueuesConserve(w, Registered(w, id, UserCallback));
    } else {
      var i := w.streams[id];
      var known := w.(handlers := w.handlers[id := UserCallback], streams := w.streams - {id});
      var removed := SetStream(known, i, S.Unregister(w.inners[i].stream));
      SameQueuesConserve(w, removed);
      if w.inners[i].handles == 0 {
        DestroyConserves(removed, i);
      }
    }
  }

  lemma OpenConserves(w: World, id: AmId, ok: bool)
    requires RegistryAgrees(w) && BuffersConserved(w)
    ensures BuffersConserved(Open(w, id, ok))
  {
    SameQueuesConserve(w, Open(w, id, ok));
  }

  lemma DropHandleConserves(w: World, i: InnerId)
    requires Inv(w) && Enabled(w, DropHandle(i))
    ensures BuffersConserved(DropOne(w, i))
  {
    var inner := w.inners[i].(handles := w.inners[i].handles - 1);
    var dropped := SetInner(w, i, inner);
    SameQueuesConserve(w, dropped);
    if inner.handles == 0 && !IsRegistered(w, i) {
      DestroyConserves(dropped, i);
    }
  }

  lemma ReceiveKeepsInv(w: World, m: MsgId, fits: bool, word: Word)
    requires Inv(w) && m in w.msgs
    ensures Inv(Take(w, m, ReceiveEffect(w.msgs[m].data, fits, word)))
  {
    var effect := ReceiveEffect(w.msgs[m].data, fits, word);
    EffectsSettleTheBuffer(w.msgs[m].data, fits, word);
    TakeConserves(w, m, effect);
    SameControl(w, Take(w, m, effect));
  }

  lemma DropKeepsInv(w: World, m: MsgId)
    requires Inv(w) && m in w.msgs
    ensures Inv(Drop(w, m))
  {
    var effect := DropEffect(w.msgs[m].data);
    TakeConserves(w, m, effect);
    ForgetMessageConserves(Take(w, m, effect), m);
    SameControl(w, Drop(w, m));
  }

  lemma OpenKeepsInv(w: World, id: AmId, ok: bool)
    requires Inv(w)
    ensures Inv(Open(w, id, ok))
  {
    OpenKeepsRegistry(w, id, ok);
    OpenKeepsStreams(w, id, ok);
    OpenConserves(w, id, ok);
  }

  lemma RegisteredKeepsInv(w: World, id: AmId)
    requires Inv(w)
    ensures Inv(Registered(w, id, UserCallback))
  {
    RegisteredKeepsRegistry(w, id);
    RegisteredKeepsStreams(w, id);
    RegisteredConserves(w, id);
  }

  lemma CloneKeepsInv(w: World, i: InnerId)
    requires Inv(w) && i in w.inners && w.inners[i].handles > 0
    ensures Inv(SetInner(w, i, w.inners[i].(handles := w.inners[i].handles + 1)))
  {
    HandlesKeepControl(w, i, w.inners[i].handles + 1);
    SameQueuesConserve(w, SetInner(w, i, w.inners[i].(handles := w.inners[i].handles + 1)));
  }

  lemma DropHandleKeepsInv(w: World, i: InnerId)
    requires Inv(w) && Enabled(w, DropHandle(i))
    ensures Inv(DropOne(w, i))
  {
    DropHandleKeepsRegistry(w, i);
    DropHandleKeepsStreams(w, i);
    DropHandleConserves(w, i);
  }

  lemma ArriveKeepsInv(w: World, id: AmId, buf: BufId, bytes: seq<Byte>, attr: bv64)
    requires Inv(w) && Enabled(w, Deliver(id, buf, bytes, attr))
    ensures Inv(Arrive(w, id, buf, bytes, attr))
  {
    ArriveKeepsControl(w, id, buf, bytes, attr);
    if id in w.handlers && w.handlers[id].StreamCallback? {
      EnqueueConserves(w, w.handlers[id].inner, id, buf, bytes, attr);
    }
  }

  lemma PollKeepsInv(w: World, i: InnerId, waiter: S.Waiter, m: MsgId)
    requires Inv(w) && Enabled(w, PollWait(i, waiter, m))
    ensures Inv(Poll(w, i, waiter, m))
  {
    PollKeepsControl(w, i, waiter, m);
    PollConserves(w, i, waiter, m);
  }

  lemma CancelKeepsInv(w: World, i: InnerId, waiter: S.Waiter)
    requires Inv(w) && Enabled(w, CancelWait(i, waiter))
    ensures Inv(SetStream(w, i, S.Cancel(w.inners[i].stream, waiter)))
  {
    CancelKeepsStream(w.inners[i].stream, waiter);
    WaiterKeepsControl(w, i, S.Cancel(w.inners[i].stream, waiter));
    CancelConserves(w, i, waiter);
  }

  lemma StepKeepsInv(w: World, step: Step)
    requires Inv(w) && Enabled(w, step)
    ensures Inv(Next(w, step).value)
  {
    match step
    case OpenStream(id, ok) => OpenKeepsInv(w, id, ok);
    case SetHandler(id, ok) => if ok { RegisteredKeepsInv(w, id); }
    case CloneHandle(i) => CloneKeepsInv(w, i);
    case DropHandle(i) => DropHandleKeepsInv(w, i);
    case Deliver(id, buf, bytes, attr) => ArriveKeepsInv(w, id, buf, bytes, attr);
    case PollWait(i, waiter, m) => PollKeepsInv(w, i, waiter, m);
    case CancelWait(i, waiter) => CancelKeepsInv(w, i, waiter);
    case Receive(m, fits, word) => ReceiveKeepsInv(w, m, fits, word);
    case DropMsg(m) => DropKeepsInv(w, m);
  }

  lemma {:induction false} RunKeepsInv(w: World, steps: seq<Step>)
    requires Inv(w) && Run(Next, w, steps).Some?
    ensures Inv(Run(Next, w, steps).value)
  {
    forall t, l | Inv(t) && Next(t, l).Some? ensures Inv(Next(t, l).value) {
      StepKeepsInv(t, l);
    }
    Preserved(Next, t => Inv(t), w, steps);
  }

  // ---- Main results ----

  /**
   After any calls, callbacks, polls and drops: no access was dangling, the registry agrees with UCX,
   every stream keeps its order and loses no notification, and every buffer is accounted for.
   */
  lemma {:induction false} EveryRunIsSafe(steps: seq<Step>)
    requires Run(Next, Init(), steps).Some?
    ensures var w := Run(Next, Init(), steps).value;
            && !w.misuse
            && RegistryAgrees(w)
            && BuffersConserved(w)
            && (forall i :: i in w.inners ==> S.NoLostNotification(w.inners[i].stream) && S.Fifo(w.inners[i].stream))
  {
    RunKeepsInv(Init(), steps);
  }

  /** A stream that was unregistered, and what was pushed on it. */
  ghost predicate Closed(w: World, i: InnerId, pushed: seq<RawMsg>) {
    i < w.nextInner && (i in w.inners ==> w.inners[i].stream.unregistered && w.inners[i].stream.pushed == pushed)
  }

  /** The one step that pushes goes to a registered stream. */
  lemma PushesGoElsewhere(w: World, i: InnerId, id: AmId)
    requires RegistryAgrees(w) && i in w.inners && w.inners[i].stream.unregistered
    requires id in w.handlers && w.handlers[id].StreamCallback?
    ensures w.handlers[id].inner != i
  {
  }

  lemma RegistrationKeepsClosed(w: World, step: Step, i: InnerId, pushed: seq<RawMsg>)
    requires RegistryAgrees(w) && Enabled(w, step) && Closed(w, i, pushed)
    requires step.OpenStream? || step.SetHandler?
    ensures Closed(Next(w, step).value, i, pushed)
  {
    assert step.id in w.streams ==> w.streams[step.id] in w.inners && w.streams[step.id] < w.nextInner;
  }

  /** What keeps or forgets the streams as they are, keeps them closed. */
  lemma SameStreamsKeepClosed(w: World, t: World, i: InnerId, pushed: seq<RawMsg>)
    requires Closed(w, i, pushed) && t.nextInner == w.nextInner
    requires i in t.inners ==>
               && i in w.inners
               && t.inners[i].stream.pushed == w.inners[i].stream.pushed
               && t.inners[i].stream.unregistered == w.inners[i].stream.unregistered
    ensures Closed(t, i, pushed)
  {
  }

  lemma MessagesKeepClosed(w: World, step: Step, i: InnerId, pushed: seq<RawMsg>)
    requires Enabled(w, step) && Closed(w, i, pushed)
    requires !step.OpenStream? && !step.SetHandler?
    requires step.Deliver? && i in w.inners && step.id in w.handlers && w.handlers[step.id].StreamCallback? ==>
               w.handlers[step.id].inner != i
    ensures Closed(Next(w, step).value, i, pushed)
  {
    if step.PollWait? {
      PollIsControlledByItsStream(w, step.inner, step.waiter, step.msg);
      SameStreamsKeepClosed(w, Poll(w, step.inner, step.waiter, step.msg), i, pushed);
    } else {
      SameStreamsKeepClosed(w, Next(w, step).value, i, pushed);
    }
  }

  lemma ClosedStaysClosed(w: World, step: Step, i: InnerId, pushed: seq<RawMsg>)
    requires RegistryAgrees(w) && Enabled(w, step) && Closed(w, i, pushed)
    ensures Closed(Next(w, step).value, i, pushed)
  {
    if step.OpenStream? || step.SetHandler? {
      RegistrationKeepsClosed(w, step, i, pushed);
    } else {
      if step.Deliver? && i in w.inners && step.id in w.handlers && w.handlers[step.id].StreamCallback? {
        PushesGoElsewhere(w, i, step.id);
      }
      MessagesKeepClosed(w, step, i, pushed);
    }
  }

  /** No message is ever pushed on an unregistered stream again, so draining it comes to an end. */
  lemma {:induction false} UnregisteredStreamGetsNoMore(w: World, steps: seq<Step>, i: InnerId)
    requires Inv(w) && i in w.inners && w.inners[i].stream.unregistered
    requires Run(Next, w, steps).Some?
    ensures var t := Run(Next, w, steps).value;
            i in t.inners ==> t.inners[i].stream.unregistered && t.inners[i].stream.pushed == w.inners[i].stream.pushed
  {
    var pushed := w.inners[i].stream.pushed;
    forall t, l | Inv(t) && Closed(t, i, pushed) && Next(t, l).Some?
      ensures Inv(Next(t, l).value) && Closed(Next(t, l).value, i, pushed)
    {
      StepKeepsInv(t, l);
      ClosedStaysClosed(t, l, i, pushed);
    }
    Preserved(Next, t => Inv(t) && Closed(t, i, pushed), w, steps);
  }

  /**
   Draining: while an unregistered stream lives, what its calls returned and what is still queued add up to
   the same messages in the same order, whatever else happens.
   */
  lemma {:induction false} UnregisteredStreamKeepsItsMessages(w: World, steps: seq<Step>, i: InnerId)
    requires Inv(w) && i in w.inners && w.inners[i].stream.unregistered
    requires Run(Next, w, steps).Some?
    ensures var s, t := w.inners[i].stream, Run(Next, w, steps).value;
            i in t.inners ==> t.inners[i].stream.returned + t.inners[i].stream.queue == s.returned + s.queue
  {
    UnregisteredStreamGetsNoMore(w, steps, i);
    RunKeepsInv(w, steps);
  }

  /** A machine without successful registrations of `id` by hand. */
  function NextWithout(id: AmId): (World, Step) -> Option<World> {
    (w, step) => if step == SetHandler(id, true) then None else Next(w, step)
  }

  lemma MessagesKeepTheRegistry(w: World, step: Step)
    requires Enabled(w, step) && !step.OpenStream? && !step.SetHandler?
    ensures Next(w, step).value.streams == w.streams
  {
    if step.PollWait? {
      PollIsControlledByItsStream(w, step.inner, step.waiter, step.msg);
    }
  }

  lemma StreamStaysOpen(w: World, step: Step, id: AmId)
    requires RegistryAgrees(w) && id in w.streams && Enabled(w, step) && step != SetHandler(id, true)
    ensures id in Next(w, step).value.streams && Next(w, step).value.streams[id] == w.streams[id]
  {
    if step.OpenStream? {
      assert Next(w, step).value == Open(w, step.id, step.ok);
    } else if step.SetHandler? {
      assert step.ok ==> Next(w, step).value == Registered(w, step.id, UserCallback);
    } else {
      MessagesKeepTheRegistry(w, step);
    }
  }

  /**
   Until somebody registers another handler for `id`, opening it again gives the same stream, whatever UCX
   would say.
   */
  lemma {:induction false} OpeningAgainGivesTheSameStream(w: World, steps: seq<Step>, id: AmId, ok: bool)
    requires Inv(w) && id in w.streams
    requires Run(NextWithout(id), w, steps).Some?
    ensures var t := Run(NextWithout(id), w, steps).value;
            && id in t.streams && t.streams[id] == w.streams[id] && t.streams[id] in t.inners
            && var i := t.streams[id];
               Open(t, id, ok) == SetInner(t, i, t.inners[i].(handles := t.inners[i].handles + 1))
  {
    var i := w.streams[id];
    var next := NextWithout(id);
    forall t, l | Inv(t) && id in t.streams && t.streams[id] == i && next(t, l).Some?
      ensures Inv(next(t, l).value) && id in next(t, l).value.streams && next(t, l).value.streams[id] == i
    {
      assert next(t, l) == Next(t, l) && l != SetHandler(id, true);
      StepKeepsInv(t, l);
      StreamStaysOpen(t, l, id);
    }
    Preserved(next, t => Inv(t) && id in t.streams && t.streams[id] == i, w, steps);
  }
}
