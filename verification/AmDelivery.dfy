/**
 What users get is what UCX delivered. Every stream of a worker lives as if it were alone, so what is
 proved of streams holds of each of them; and the messages that its calls hand out are those that UCX
 delivered to it, in order, each with its bytes.
 */
module AmDelivery {
  import opened Wrappers
  import opened Runs
  import opened StatusWords
  import opened Scatter
  import opened AmMessage
  import opened AmWorker
  import S = AmStream

  type Raw = S.Step<RawMsg>

  // ---- One stream of many ----

  /** What a step of the worker means for one of its streams, if anything. */
  function StreamStep(w: World, step: Step, j: InnerId): Option<Raw> {
    match step
    case Deliver(id, buf, bytes, attr) =>
      if id in w.handlers && w.handlers[id] == StreamCallback(j)
      then Some(S.DoPush(RawMsg(id, FromRaw(buf, bytes, attr)))) else None
    case SetHandler(id, ok) =>
      if ok && id in w.streams && w.streams[id] == j then Some(S.DoUnregister) else None
    case PollWait(i, waiter, _) => if i == j then Some(S.DoPoll(waiter)) else None
    case CancelWait(i, waiter) => if i == j then Some(S.DoCancel(waiter)) else None
    case _ => None
  }

  /** A step means nothing for a stream that is not there. */
  function ProperStep(w: World, step: Step, j: InnerId): Option<Raw> {
    if j in w.inners then StreamStep(w, step, j) else None
  }

  function AsSteps(step: Option<Raw>): seq<Raw> {
    if step.Some? then [step.value] else []
  }

  /** A stream that lives on makes that step and no other. */
  ghost predicate TakesItsStep(w: World, step: Step, t: World, j: InnerId) {
    j in w.inners && j in t.inners ==>
      match StreamStep(w, step, j)
      case Some(l) => S.Next(w.inners[j].stream, l) == Some(t.inners[j].stream)
      case None => t.inners[j].stream == w.inners[j].stream
  }

  lemma RegistrationTakesItsStep(w: World, step: Step, j: InnerId)
    requires RegistryAgrees(w) && Enabled(w, step) && (step.OpenStream? || step.SetHandler?)
    ensures TakesItsStep(w, step, Next(w, step).value, j)
  {
    assert step.id in w.streams ==> w.streams[step.id] in w.inners;
  }

  lemma ArrivalTakesItsStep(w: World, step: Step, j: InnerId)
    requires RegistryAgrees(w) && Enabled(w, step) && step.Deliver?
    ensures TakesItsStep(w, step, Next(w, step).value, j)
  {
  }

  lemma OthersTakeTheirStep(w: World, step: Step, j: InnerId)
    requires Enabled(w, step) && !step.OpenStream? && !step.SetHandler? && !step.Deliver?
    ensures TakesItsStep(w, step, Next(w, step).value, j)
  {
    if step.PollWait? {
      PollIsControlledByItsStream(w, step.inner, step.waiter, step.msg);
    }
  }

  lemma StreamsTakeTheirSteps(w: World, step: Step, j: InnerId)
    requires RegistryAgrees(w) && Enabled(w, step)
    ensures TakesItsStep(w, step, Next(w, step).value, j)
  {
    if step.OpenStream? || step.SetHandler? {
      RegistrationTakesItsStep(w, step, j);
    } else if step.Deliver? {
      ArrivalTakesItsStep(w, step, j);
    } else {
      OthersTakeTheirStep(w, step, j);
    }
  }

  /** Streams come only by being opened, as the next number, new and empty. */
  lemma StreamsComeNew(w: World, step: Step, j: InnerId)
    requires RegistryAgrees(w) && Enabled(w, step)
    ensures var t := Next(w, step).value;
            && w.nextInner <= t.nextInner
            && (j in t.inners && j !in w.inners ==> j == w.nextInner && t.inners[j].stream == S.NewStream())
  {
    if step.PollWait? {
      PollIsControlledByItsStream(w, step.inner, step.waiter, step.msg);
    } else if step.OpenStream? {
      assert step.id in w.streams ==> w.streams[step.id] in w.inners;
    }
  }

  /** What a run means for one stream. */
  function StreamSteps(steps: seq<Step>, j: InnerId): seq<Raw>
    decreases |steps|
  {
    if steps == [] then
      []
    else
      var n := |steps| - 1;
      var w := Run(Next, Init(), steps[..n]);
      StreamSteps(steps[..n], j) +
      (if w.Some? then AsSteps(ProperStep(w.value, steps[n], j)) else [])
  }

  lemma {:induction false} NothingBeforeItOpens(steps: seq<Step>, j: InnerId)
    requires Run(Next, Init(), steps).Some? && j >= Run(Next, Init(), steps).value.nextInner
    ensures StreamSteps(steps, j) == []
    decreases |steps|
  {
    if steps == [] {
      assert StreamSteps(steps, j) == [];
    } else {
      var n := |steps| - 1;
      RunKeepsInv(Init(), steps[..n]);
      StreamsComeNew(Run(Next, Init(), steps[..n]).value, steps[n], j);
      NothingBeforeItOpens(steps[..n], j);
    }
  }

  lemma StreamRunGrows(stream: S.Stream<RawMsg>, front: seq<Raw>, step: Option<Raw>, after: S.Stream<RawMsg>)
    requires Run<S.Stream<RawMsg>, Raw>(S.Next, S.NewStream(), front) == Some(stream)
    requires match step
             case Some(l) => S.Next(stream, l) == Some(after)
             case None => after == stream
    ensures Run<S.Stream<RawMsg>, Raw>(S.Next, S.NewStream(), front + AsSteps(step)) == Some(after)
  {
    if step.Some? {
      RunSnoc<S.Stream<RawMsg>, Raw>(S.Next, S.NewStream(), front, step.value);
    } else {
      assert front + [] == front;
    }
  }

  /**
   A stream of a worker is as its own steps alone leave it, whatever happens to the others: so in every run
   of the worker it is in a state that a run of the stream by itself reaches.
   */
  lemma {:induction false} EveryStreamLivesAlone(steps: seq<Step>, j: InnerId)
    requires Run(Next, Init(), steps).Some? && j in Run(Next, Init(), steps).value.inners
    ensures Run<S.Stream<RawMsg>, Raw>(S.Next, S.NewStream(), StreamSteps(steps, j)) ==
            Some(Run(Next, Init(), steps).value.inners[j].stream)
    decreases |steps|
  {
    if steps == [] {
      assert false;
    } else {
      var n := |steps| - 1;
      var w, t := Run(Next, Init(), steps[..n]).value, Run(Next, Init(), steps).value;
      RunKeepsInv(Init(), steps[..n]);
      if j in w.inners {
        EveryStreamLivesAlone(steps[..n], j);
        StreamsTakeTheirSteps(w, steps[n], j);
        StreamRunGrows(
          w.inners[j].stream, StreamSteps(steps[..n], j), StreamStep(w, steps[n], j), t.inners[j].stream);
      } else {
        StreamsComeNew(w, steps[n], j);
        NothingBeforeItOpens(steps[..n], j);
        assert StreamSteps(steps, j) == [];
      }
    }
  }

  /** So after every run of a worker, each stream knows exactly the calls that still wait on it. */
  lemma {:induction false} EveryWaitingCallIsKnown(steps: seq<Step>, j: InnerId, waiter: S.Waiter)
    requires Run(Next, Init(), steps).Some? && j in Run(Next, Init(), steps).value.inners
    ensures S.IsKnown(Run(Next, Init(), steps).value.inners[j].stream, waiter) <==>
            S.StillWaits(StreamSteps(steps, j), waiter)
  {
    EveryStreamLivesAlone(steps, j);
    S.WaitingCallsAreKnown(StreamSteps(steps, j), waiter);
  }

  // ---- What users hold ----

  /** A poll that finds a message hands out the first one, as it was queued. */
  lemma PollsHandOutTheFirst(w: World, i: InnerId, waiter: S.Waiter, m: MsgId)
    requires Enabled(w, PollWait(i, waiter, m))
    ensures var s := w.inners[i].stream;
            Next(w, PollWait(i, waiter, m)).value.msgs ==
            if waiter !in s.notify.waiting && s.queue != [] then w.msgs[m := s.queue[0]] else w.msgs
  {
  }

  lemma ReceivesEmptyTheMessage(w: World, m: MsgId, fits: bool, word: Word)
    requires BuffersConserved(w) && m in w.msgs
    ensures Next(w, Receive(m, fits, word)).value.msgs == w.msgs[m := RawMsg(w.msgs[m].id, None)]
  {
    HeldBuffersAreLent(w, m);
  }

  lemma DropsRemoveTheMessage(w: World, m: MsgId)
    requires BuffersConserved(w) && m in w.msgs
    ensures Next(w, DropMsg(m)).value.msgs == w.msgs - {m}
  {
    HeldBuffersAreLent(w, m);
  }

  lemma OthersKeepTheMessages(w: World, step: Step)
    requires Enabled(w, step) && !step.PollWait? && !step.Receive? && !step.DropMsg?
    ensures Next(w, step).value.msgs == w.msgs
  {
  }

  /** What each step does to the messages that users hold. */
  lemma MessagesChangeOnlySo(w: World, step: Step)
    requires Inv(w) && Enabled(w, step)
    ensures var after := Next(w, step).value.msgs;
            match step
            case PollWait(i, waiter, m) =>
              var s := w.inners[i].stream;
              after == if waiter !in s.notify.waiting && s.queue != [] then w.msgs[m := s.queue[0]] else w.msgs
            case Receive(m, _, _) => after == w.msgs[m := RawMsg(w.msgs[m].id, None)]
            case DropMsg(m) => after == w.msgs - {m}
            case _ => after == w.msgs
  {
    if step.PollWait? {
      PollsHandOutTheFirst(w, step.inner, step.waiter, step.msg);
    } else if step.Receive? {
      ReceivesEmptyTheMessage(w, step.msg, step.fits, step.word);
    } else if step.DropMsg? {
      DropsRemoveTheMessage(w, step.msg);
    } else {
      OthersKeepTheMessages(w, step);
    }
  }

  /** The message that a step hands to a user from a stream, if it does. */
  function Handed(w: World, step: Step, t: World, j: InnerId): seq<RawMsg> {
    if step.PollWait? && step.inner == j && step.msg in t.msgs && step.msg !in w.msgs then [t.msgs[step.msg]] else []
  }

  function AllHanded(steps: seq<Step>, j: InnerId): seq<RawMsg>
    decreases |steps|
  {
    if steps == [] then
      []
    else
      var n := |steps| - 1;
      var w, t := Run(Next, Init(), steps[..n]), Run(Next, Init(), steps);
      AllHanded(steps[..n], j) + (if w.Some? && t.Some? then Handed(w.value, steps[n], t.value, j) else [])
  }

  /** The message that UCX delivers to a stream's callback in a step, if it does. */
  function Delivered(w: World, step: Step, j: InnerId): seq<RawMsg> {
    if step.Deliver? && step.id in w.handlers && w.handlers[step.id] == StreamCallback(j)
    then [RawMsg(step.id, FromRaw(step.buf, step.bytes, step.attr))] else []
  }

  function AllDelivered(steps: seq<Step>, j: InnerId): seq<RawMsg>
    decreases |steps|
  {
    if steps == [] then
      []
    else
      var n := |steps| - 1;
      var w := Run(Next, Init(), steps[..n]);
      AllDelivered(steps[..n], j) + (if w.Some? then Delivered(w.value, steps[n], j) else [])
  }

  lemma PushesGrow(front: seq<Raw>, step: Option<Raw>)
    ensures S.Pushes(front + AsSteps(step)) ==
            S.Pushes(front) + (if step.Some? && step.value.DoPush? then [step.value.m] else [])
  {
    if step.Some? {
      assert (front + [step.value])[..|front|] == front;
    } else {
      assert front + [] == front;
    }
  }

  lemma DeliveryIsAPush(w: World, step: Step, j: InnerId)
    requires RegistryAgrees(w)
    ensures var l := ProperStep(w, step, j);
            Delivered(w, step, j) == if l.Some? && l.value.DoPush? then [l.value.m] else []
  {
    assert step.Deliver? && step.id in w.handlers && w.handlers[step.id] == StreamCallback(j) ==> step.id in w.streams;
  }

  lemma {:induction false} DeliveriesArePushes(steps: seq<Step>, j: InnerId)
    requires Run(Next, Init(), steps).Some?
    ensures AllDelivered(steps, j) == S.Pushes(StreamSteps(steps, j))
    decreases |steps|
  {
    if steps == [] {
      assert StreamSteps(steps, j) == [];
    } else {
      var n := |steps| - 1;
      var w := Run(Next, Init(), steps[..n]).value;
      RunKeepsInv(Init(), steps[..n]);
      DeliveriesArePushes(steps[..n], j);
      DeliveryIsAPush(w, steps[n], j);
      PushesGrow(StreamSteps(steps[..n], j), ProperStep(w, steps[n], j));
    }
  }

  lemma ReturnsAreHandedOut(w: World, step: Step, j: InnerId)
    requires Inv(w) && Enabled(w, step)
    ensures var t := Next(w, step).value;
            && (j in w.inners && j in t.inners ==>
                  t.inners[j].stream.returned == w.inners[j].stream.returned + Handed(w, step, t, j))
            && (j !in w.inners ==> Handed(w, step, t, j) == [])
  {
    StreamsTakeTheirSteps(w, step, j);
    MessagesChangeOnlySo(w, step);
  }

  lemma {:induction false} NothingHandedBeforeItOpens(steps: seq<Step>, j: InnerId)
    requires Run(Next, Init(), steps).Some? && j >= Run(Next, Init(), steps).value.nextInner
    ensures AllHanded(steps, j) == []
    decreases |steps|
  {
    if steps == [] {
      assert AllHanded(steps, j) == [];
    } else {
      var n := |steps| - 1;
      var w := Run(Next, Init(), steps[..n]).value;
      RunKeepsInv(Init(), steps[..n]);
      StreamsComeNew(w, steps[n], j);
      NothingHandedBeforeItOpens(steps[..n], j);
      ReturnsAreHandedOut(w, steps[n], j);
    }
  }

  lemma {:induction false} AllReturnsAreHandedOut(steps: seq<Step>, j: InnerId)
    requires Run(Next, Init(), steps).Some? && j in Run(Next, Init(), steps).value.inners
    ensures Run(Next, Init(), steps).value.inners[j].stream.returned == AllHanded(steps, j)
    decreases |steps|
  {
    if steps == [] {
      assert false;
    } else {
      var n := |steps| - 1;
      var w := Run(Next, Init(), steps[..n]).value;
      RunKeepsInv(Init(), steps[..n]);
      ReturnsAreHandedOut(w, steps[n], j);
      if j in w.inners {
        AllReturnsAreHandedOut(steps[..n], j);
      } else {
        StreamsComeNew(w, steps[n], j);
        NothingHandedBeforeItOpens(steps[..n], j);
      }
    }
  }

  /**
   What users were handed from a stream, in order, and then what it still queues, is what UCX delivered to
   it: nothing is lost, doubled, altered or overtaken.
   */
  lemma {:induction false} DeliveredInOrder(steps: seq<Step>, j: InnerId)
    requires Run(Next, Init(), steps).Some? && j in Run(Next, Init(), steps).value.inners
    ensures AllHanded(steps, j) + Run(Next, Init(), steps).value.inners[j].stream.queue == AllDelivered(steps, j)
  {
    RunKeepsInv(Init(), steps);
    EveryStreamLivesAlone(steps, j);
    S.PushedAreThePushes(StreamSteps(steps, j));
    DeliveriesArePushes(steps, j);
    AllReturnsAreHandedOut(steps, j);
  }

  // ---- The bytes ----

  /** The bytes that UCX last delivered in a buffer. */
  function LastBytes(steps: seq<Step>, b: BufId): seq<Byte>
    decreases |steps|
  {
    if steps == [] then []
    else
      var last := steps[|steps| - 1];
      if last.Deliver? && last.buf == b then last.bytes else LastBytes(steps[..|steps| - 1], b)
  }

  /** In a step, a buffer that is lent afterwards came in it or was lent before, with the same bytes. */
  ghost predicate LendsTheSame(w: World, step: Step, t: World, b: BufId) {
    b in t.ucx.lent ==>
      if step.Deliver? && step.buf == b then t.ucx.lent[b] == step.bytes
      else b in w.ucx.lent && t.ucx.lent[b] == w.ucx.lent[b]
  }

  lemma ArrivalsLend(w: World, step: Step, b: BufId)
    requires RegistryAgrees(w) && Enabled(w, step) && step.Deliver?
    ensures LendsTheSame(w, step, Next(w, step).value, b)
  {
  }

  lemma TakingLends(w: World, step: Step, b: BufId)
    requires BuffersConserved(w) && Enabled(w, step) && (step.Receive? || step.DropMsg?)
    ensures LendsTheSame(w, step, Next(w, step).value, b)
  {
    HeldBuffersAreLent(w, step.msg);
  }

  lemma OthersLendTheSame(w: World, step: Step)
    requires Enabled(w, step) && !step.Deliver? && !step.Receive? && !step.DropMsg?
    ensures Next(w, step).value.ucx == w.ucx
  {
  }

  lemma LentBytesStay(w: World, step: Step, b: BufId)
    requires Inv(w) && Enabled(w, step)
    ensures LendsTheSame(w, step, Next(w, step).value, b)
  {
    if step.Deliver? {
      ArrivalsLend(w, step, b);
    } else if step.Receive? || step.DropMsg? {
      TakingLends(w, step, b);
    } else {
      OthersLendTheSame(w, step);
    }
  }

  /** A buffer that is still lent holds what came in it. */
  lemma {:induction false} LentBuffersHoldWhatCame(steps: seq<Step>, b: BufId)
    requires Run(Next, Init(), steps).Some? && b in Run(Next, Init(), steps).value.ucx.lent
    ensures Run(Next, Init(), steps).value.ucx.lent[b] == LastBytes(steps, b)
    decreases |steps|
  {
    if steps == [] {
      assert false;
    } else {
      var n := |steps| - 1;
      RunKeepsInv(Init(), steps[..n]);
      LentBytesStay(Run(Next, Init(), steps[..n]).value, steps[n], b);
      if !(steps[n].Deliver? && steps[n].buf == b) {
        LentBuffersHoldWhatCame(steps[..n], b);
      }
    }
  }

  /** From end to end, at one go: what is delivered on an id and then fetched has that id and those bytes. */
  lemma {:induction false} DeliveredThenFetched(
      w: World, id: AmId, buf: BufId, bytes: seq<Byte>, attr: bv64, waiter: S.Waiter, m: MsgId)
    requires Inv(w) && id in w.streams && Enabled(w, Deliver(id, buf, bytes, attr)) && m !in w.msgs
    requires var inner := w.inners[w.streams[id]];
             inner.handles > 0 && inner.stream.queue == [] && waiter !in inner.stream.notify.waiting
    ensures var t := Run(Next, w, [Deliver(id, buf, bytes, attr)] + [PollWait(w.streams[id], waiter, m)]);
            && t.Some? && m in t.value.msgs && t.value.msgs[m].id == id
            && Backed(t.value.msgs[m].data, t.value.ucx)
            && var toReceive := attr & ATTR_FLAG_DATA == 0 && attr & ATTR_FLAG_RNDV != 0 && bytes != [];
               Payload(t.value.msgs[m].data, t.value.ucx) == if toReceive then None else Some(bytes)
  {
    var i := w.streams[id];
    var step, poll := Deliver(id, buf, bytes, attr), PollWait(i, waiter, m);
    var d := Next(w, step).value;
    assert [step][..0] == [];
    assert Run(Next, w, []) == Some(w);
    assert Run(Next, w, [step]) == Some(d);
    RunSnoc(Next, w, [step], poll);
    ArrivesInFront(w, id, buf, bytes, attr, waiter);
    PollsHandOutTheFirst(d, i, waiter, m);
    OthersLendTheSame(d, poll);
    PayloadIsWhatCame(buf, bytes, attr, d.ucx);
  }

  lemma ArrivesInFront(w: World, id: AmId, buf: BufId, bytes: seq<Byte>, attr: bv64, waiter: S.Waiter)
    requires RegistryAgrees(w) && id in w.streams && Enabled(w, Deliver(id, buf, bytes, attr))
    requires w.inners[w.streams[id]].stream.queue == [] && waiter !in w.inners[w.streams[id]].stream.notify.waiting
    ensures var i, d := w.streams[id], Next(w, Deliver(id, buf, bytes, attr)).value;
            && i in d.inners && d.inners[i].handles == w.inners[i].handles && d.msgs == w.msgs
            && d.inners[i].stream.queue == [RawMsg(id, FromRaw(buf, bytes, attr))]
            && waiter !in d.inners[i].stream.notify.waiting
            && (CallbackAnswer(attr) == UCS_INPROGRESS ==> buf in d.ucx.lent && d.ucx.lent[buf] == bytes)
  {
    var i := w.streams[id];
    assert Next(w, Deliver(id, buf, bytes, attr)).value == Enqueue(w, i, id, buf, bytes, attr);
  }

  // ---- How long a stream lives ----

  /** What a step adds to the `AmStream`s of a stream. */
  function Gained(w: World, step: Step, j: InnerId): int {
    if step == CloneHandle(j) then 1
    else if step == DropHandle(j) then -1
    else if step.OpenStream? && step.id in w.streams && w.streams[step.id] == j then 1
    else 0
  }

  ghost predicate Counted(w: World, step: Step, t: World, j: InnerId) {
    && (j in w.inners && j in t.inners ==> t.inners[j].handles == w.inners[j].handles + Gained(w, step, j))
    && (j !in w.inners && j in t.inners ==> step == OpenStream(t.inners[j].id, true) && t.inners[j].handles == 1)
  }

  lemma RegistrationsCount(w: World, step: Step, j: InnerId)
    requires RegistryAgrees(w) && Enabled(w, step) && (step.OpenStream? || step.SetHandler?)
    ensures Counted(w, step, Next(w, step).value, j)
  {
    assert step.id in w.streams ==> w.streams[step.id] in w.inners;
  }

  lemma OthersCount(w: World, step: Step, j: InnerId)
    requires RegistryAgrees(w) && Enabled(w, step) && !step.OpenStream? && !step.SetHandler?
    ensures Counted(w, step, Next(w, step).value, j)
  {
    if step.PollWait? {
      PollIsControlledByItsStream(w, step.inner, step.waiter, step.msg);
    }
  }

  /** `AmStream`s are counted: opening and cloning add one, dropping takes one, and nothing else does either. */
  lemma HandlesAreCounted(w: World, step: Step, j: InnerId)
    requires RegistryAgrees(w) && Enabled(w, step)
    ensures Counted(w, step, Next(w, step).value, j)
  {
    if step.OpenStream? || step.SetHandler? {
      RegistrationsCount(w, step, j);
    } else {
      OthersCount(w, step, j);
    }
  }

  lemma WhenRegistrationsEndAStream(w: World, step: Step, j: InnerId)
    requires RegistryAgrees(w) && Enabled(w, step) && j in w.inners && (step.OpenStream? || step.SetHandler?)
    ensures j !in Next(w, step).value.inners <==> LastReferenceGoes(w, step, j)
  {
    assert step.id in w.streams ==> w.streams[step.id] in w.inners && w.inners[w.streams[step.id]].id == step.id;
  }

  lemma WhenOthersEndAStream(w: World, step: Step, j: InnerId)
    requires RegistryAgrees(w) && Enabled(w, step) && j in w.inners && !step.OpenStream? && !step.SetHandler?
    ensures j !in Next(w, step).value.inners <==> LastReferenceGoes(w, step, j)
  {
    if step.PollWait? {
      PollIsControlledByItsStream(w, step.inner, step.waiter, step.msg);
    }
  }

  /** A stream goes exactly with the last reference to it, be that an `AmStream` or the registry's. */
  lemma WhenAStreamGoes(w: World, step: Step, j: InnerId)
    requires RegistryAgrees(w) && Enabled(w, step) && j in w.inners
    ensures j !in Next(w, step).value.inners <==> LastReferenceGoes(w, step, j)
  {
    if step.OpenStream? || step.SetHandler? {
      WhenRegistrationsEndAStream(w, step, j);
    } else {
      WhenOthersEndAStream(w, step, j);
    }
  }
}
