/**
 Buffers that the receive callback retained and nothing ever gives back to UCX: the four ways to forget
 one, that there is no other and no way back, and a run that takes each of them.
 */
module Forgetting {
  import opened Wrappers
  import opened Runs
  import opened StatusWords
  import opened Scatter
  import opened AmMessage
  import opened AmWorker
  import S = AmStream

  predicate IsForgotten(w: World, b: BufId) {
    b in w.place && w.place[b] == Forgotten
  }

  // ---- The four ways ----

  /** A stream's callback told UCX that it keeps the buffer of an empty payload. */
  predicate CameEmpty(w: World, step: Step, b: BufId) {
    && step.Deliver? && step.buf == b && step.bytes == [] && CallbackAnswer(step.attr) == UCS_INPROGRESS
    && step.id in w.handlers && w.handlers[step.id].StreamCallback?
  }

  /** A data message was received into too little room. */
  predicate WasTruncated(w: World, step: Step, b: BufId) {
    step.Receive? && HeldBy(w, step.msg, b) && w.msgs[step.msg].data.value.Data? && !step.fits
  }

  /** UCX refused to receive the data of a rendezvous message. */
  predicate WasRefused(w: World, step: Step, b: BufId) {
    step.Receive? && HeldBy(w, step.msg, b) && w.msgs[step.msg].data.value.Rndv? && IsErr(step.word)
  }

  /** The last reference to the stream goes while the message is queued. */
  predicate WasStillQueued(w: World, step: Step, b: BufId) {
    && b in w.place && w.place[b].Queued? && w.place[b].inner in w.inners
    && LastReferenceGoes(w, step, w.place[b].inner)
  }

  predicate Forgets(w: World, step: Step, b: BufId) {
    || CameEmpty(w, step, b)
    || WasTruncated(w, step, b)
    || WasRefused(w, step, b)
    || WasStillQueued(w, step, b)
  }

  function Forgetter(b: BufId): (World, Step) -> bool {
    (w, step) => Forgets(w, step, b)
  }

  // ---- One step ----

  lemma DestructionForgetsTheQueue(w: World, i: InnerId, b: BufId)
    requires i in w.inners && S.Fifo(w.inners[i].stream) && BuffersConserved(w)
    ensures IsForgotten(Destroy(w, i), b) <==>
            IsForgotten(w, b) || (b in w.place && w.place[b].Queued? && w.place[b].inner == i)
  {
    QueueIsTheRest(w, i, b);
    if b in w.place {
      assert PlaceIsRight(w, b);
    }
  }

  lemma RegistrationForgets(w: World, id: AmId, b: BufId)
    requires Inv(w)
    ensures IsForgotten(Registered(w, id, UserCallback), b) <==>
            IsForgotten(w, b) || WasStillQueued(w, SetHandler(id, true), b)
  {
    if b in w.place {
      assert PlaceIsRight(w, b);
    }
    if id in w.streams {
      var i := w.streams[id];
      var known := w.(handlers := w.handlers[id := UserCallback], streams := w.streams - {id});
      var removed := SetStream(known, i, S.Unregister(w.inners[i].stream));
      SameQueuesConserve(w, removed);
      DestructionForgetsTheQueue(removed, i, b);
    }
  }

  lemma DropOneForgets(w: World, i: InnerId, b: BufId)
    requires Inv(w) && Enabled(w, DropHandle(i))
    ensures IsForgotten(DropOne(w, i), b) <==> IsForgotten(w, b) || WasStillQueued(w, DropHandle(i), b)
  {
    var dropped := SetInner(w, i, w.inners[i].(handles := w.inners[i].handles - 1));
    SameQueuesConserve(w, dropped);
    DestructionForgetsTheQueue(dropped, i, b);
  }

  lemma ArrivalForgets(w: World, step: Step, b: BufId)
    requires Inv(w) && Enabled(w, step) && step.Deliver?
    ensures IsForgotten(Next(w, step).value, b) <==> IsForgotten(w, b) || CameEmpty(w, step, b)
  {
  }

  /** A buffer that a poll passes on was queued, so it was not forgotten. */
  lemma PollForgetsNothing(w: World, i: InnerId, waiter: S.Waiter, m: MsgId, b: BufId)
    requires Inv(w) && Enabled(w, PollWait(i, waiter, m))
    ensures IsForgotten(Next(w, PollWait(i, waiter, m)).value, b) <==> IsForgotten(w, b)
  {
    var (stream, told) := S.PollWait(w.inners[i].stream, waiter);
    if told.Ready? && told.value.Some? && Buffer(told.value.value.data) == Some(b) {
      assert w.inners[i].stream.pushed == w.inners[i].stream.returned + w.inners[i].stream.queue;
      PassedBufferWasQueued(w, i, stream, m, told.value.value);
    }
  }

  lemma TakingForgets(w: World, m: MsgId, effect: Effect, b: BufId)
    requires BuffersConserved(w) && m in w.msgs && Settles(effect, w.msgs[m].data)
    ensures IsForgotten(Take(w, m, effect), b) <==> IsForgotten(w, b) || effect == Forget(b)
  {
    HeldBuffersAreLent(w, m);
  }

  lemma MessageForgets(w: World, step: Step, b: BufId)
    requires Inv(w) && Enabled(w, step) && (step.Receive? || step.DropMsg?)
    ensures IsForgotten(Next(w, step).value, b) <==>
            IsForgotten(w, b) || WasTruncated(w, step, b) || WasRefused(w, step, b)
  {
    var data := w.msgs[step.msg].data;
    if step.Receive? {
      EffectsSettleTheBuffer(data, step.fits, step.word);
      TakingForgets(w, step.msg, ReceiveEffect(data, step.fits, step.word), b);
    } else {
      TakingForgets(w, step.msg, DropEffect(data), b);
    }
  }

  lemma OthersForgetNothing(w: World, step: Step)
    requires RegistryAgrees(w) && Enabled(w, step)
    requires step.OpenStream? || step.CloneHandle? || step.CancelWait?
    ensures Next(w, step).value.place == w.place
  {
  }

  /** A buffer is forgotten after a step exactly if it was before, or the step forgets it in one of the four ways. */
  lemma HowBuffersAreForgotten(w: World, step: Step, b: BufId)
    requires Inv(w) && Enabled(w, step)
    ensures IsForgotten(Next(w, step).value, b) <==> IsForgotten(w, b) || Forgets(w, step, b)
  {
    if step.SetHandler? {
      RegistrationForgets(w, step.id, b);
    } else if step.DropHandle? {
      DropOneForgets(w, step.inner, b);
    } else if step.Deliver? {
      ArrivalForgets(w, step, b);
    } else if step.PollWait? {
      PollForgetsNothing(w, step.inner, step.waiter, step.msg, b);
    } else if step.Receive? || step.DropMsg? {
      MessageForgets(w, step, b);
    } else {
      OthersForgetNothing(w, step);
    }
  }

  // ---- Whole runs ----

  /** The buffers that a run forgot are exactly those that one of its steps forgot. */
  lemma {:induction false} ForgottenIffSomeStepForgets(steps: seq<Step>, b: BufId)
    requires Run(Next, Init(), steps).Some?
    ensures IsForgotten(Run(Next, Init(), steps).value, b) <==>
            exists k: nat :: HappensAt(Next, Init(), steps, Forgetter(b), k)
  {
    forall w, step | Inv(w) && Next(w, step).Some?
      ensures Inv(Next(w, step).value)
      ensures IsForgotten(Next(w, step).value, b) <==> IsForgotten(w, b) || Forgets(w, step, b)
    {
      StepKeepsInv(w, step);
      HowBuffersAreForgotten(w, step, b);
    }
    RaisedIffItHappened(Next, w => Inv(w), w => IsForgotten(w, b), Forgetter(b), Init(), steps);
  }

  /** A forgotten buffer stays with UCX's lender for good: no later run releases it or hands it over. */
  lemma {:induction false} ForgottenForGood(w: World, steps: seq<Step>, b: BufId)
    requires Inv(w) && IsForgotten(w, b) && Run(Next, w, steps).Some?
    ensures var t := Run(Next, w, steps).value;
            IsForgotten(t, b) && b in t.ucx.lent && Returned(t.ucx, b, 0, 0)
  {
    forall t, l | Inv(t) && IsForgotten(t, b) && Next(t, l).Some?
      ensures Inv(Next(t, l).value) && IsForgotten(Next(t, l).value, b)
    {
      StepKeepsInv(t, l);
      HowBuffersAreForgotten(t, l, b);
    }
    Preserved(Next, t => Inv(t) && IsForgotten(t, b), w, steps);
    assert PlaceIsRight(Run(Next, w, steps).value, b);
  }

  // ---- A run for each way ----

  function Arrived(bytes: seq<Byte>, attr: bv64): seq<Step> {
    [OpenStream(0, true), Deliver(0, 0, bytes, attr)]
  }

  function Fetched(attr: bv64): seq<Step> {
    Arrived([0], attr) + [PollWait(0, 0, 0)]
  }

  lemma RunTwice(w: World, a: Step, b: Step)
    requires Enabled(w, a) && Enabled(Next(w, a).value, b)
    ensures Run(Next, w, [a, b]) == Next(Next(w, a).value, b)
  {
    assert [a][..0] == [];
    assert Run(Next, w, [a]) == Next(w, a);
    assert [a, b][..1] == [a];
  }

  lemma {:induction false} ArrivedQueues(bytes: seq<Byte>, attr: bv64)
    requires CallbackAnswer(attr) == UCS_INPROGRESS
    ensures var w := Run(Next, Init(), Arrived(bytes, attr));
            && w.Some? && 0 in w.value.inners && w.value.inners[0].id == 0 && w.value.inners[0].handles == 1
            && w.value.inners[0].stream == S.Push(S.NewStream(), RawMsg(0, FromRaw(0, bytes, attr)))
            && w.value.msgs == map[] && w.value.streams == map[0 := 0]
            && w.value.place == map[0 := if bytes == [] then Forgotten else Queued(0, 0)]
            && w.value.ucx.lent == map[0 := bytes]
  {
    RunTwice(Init(), OpenStream(0, true), Deliver(0, 0, bytes, attr));
  }

  lemma {:induction false} FetchedHolds(attr: bv64)
    requires CallbackAnswer(attr) == UCS_INPROGRESS
    ensures var w := Run(Next, Init(), Fetched(attr));
            && w.Some? && 0 in w.value.msgs && w.value.msgs[0] == RawMsg(0, FromRaw(0, [0], attr))
            && w.value.place == map[0 := Held(0)] && w.value.ucx.lent == map[0 := [0]]
  {
    ArrivedQueues([0], attr);
    ClassificationAgrees(0, [0], attr);
    RunSnoc(Next, Init(), Arrived([0], attr), PollWait(0, 0, 0));
  }

  function EmptyRun(): seq<Step> {
    Arrived([], ATTR_FLAG_DATA)
  }

  function TruncatedRun(): seq<Step> {
    Fetched(ATTR_FLAG_DATA) + [Receive(0, false, 0)]
  }

  function RefusedRun(): seq<Step> {
    Fetched(ATTR_FLAG_RNDV) + [Receive(0, true, WORD_COUNT - 1)]
  }

  /** Another handler is registered while a message waits, and then the stream is dropped. */
  function QueuedRun(): seq<Step> {
    Arrived([0], ATTR_FLAG_DATA) + [SetHandler(0, true)] + [DropHandle(0)]
  }

  predicate EndsForgotten(steps: seq<Step>) {
    var w := Run(Next, Init(), steps);
    w.Some? && IsForgotten(w.value, 0)
  }

  /** The message is left in an unregistered stream with one `AmStream`. */
  lemma {:induction false} ReplacedWhileQueued()
    ensures var w := Run(Next, Init(), Arrived([0], ATTR_FLAG_DATA) + [SetHandler(0, true)]);
            && w.Some? && 0 in w.value.inners && w.value.inners[0].handles == 1 && !IsRegistered(w.value, 0)
            && Unborrowed(w.value.inners[0])
            && w.value.place == map[0 := Queued(0, 0)]
  {
    ArrivedQueues([0], ATTR_FLAG_DATA);
    RunSnoc(Next, Init(), Arrived([0], ATTR_FLAG_DATA), SetHandler(0, true));
  }

  lemma {:induction false} QueuedRunForgets()
    ensures EndsForgotten(QueuedRun())
  {
    var front := Arrived([0], ATTR_FLAG_DATA) + [SetHandler(0, true)];
    ReplacedWhileQueued();
    RunKeepsInv(Init(), front);
    RunSnoc(Next, Init(), front, DropHandle(0));
    DropOneForgets(Run(Next, Init(), front).value, 0, 0);
  }

  lemma TruncatedRunForgets()
    ensures EndsForgotten(TruncatedRun())
  {
    FetchedHolds(ATTR_FLAG_DATA);
    RunSnoc(Next, Init(), Fetched(ATTR_FLAG_DATA), Receive(0, false, 0));
  }

  lemma RefusedRunForgets()
    ensures EndsForgotten(RefusedRun())
  {
    FetchedHolds(ATTR_FLAG_RNDV);
    RunSnoc(Next, Init(), Fetched(ATTR_FLAG_RNDV), Receive(0, true, WORD_COUNT - 1));
  }

  /** Each of the four ways is taken by a run from the start. */
  lemma {:induction false} EachWayHappens()
    ensures EndsForgotten(EmptyRun()) && EndsForgotten(TruncatedRun())
    ensures EndsForgotten(RefusedRun()) && EndsForgotten(QueuedRun())
  {
    ArrivedQueues([], ATTR_FLAG_DATA);
    TruncatedRunForgets();
    RefusedRunForgets();
    QueuedRunForgets();
  }
}
