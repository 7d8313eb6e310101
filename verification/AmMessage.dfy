/**
 One active message: how its data is classified when it arrives, and how each receive route and
 the drop dispose of the buffer that UCX may have left with it.
 */
module AmMessage {
  import opened Wrappers
  import opened StatusWords
  import opened Scatter

  /** A receive buffer of UCX. */
  type BufId = nat

  // Attribute bits fixed by UCX's header.
  const ATTR_FLAG_DATA: bv64 := 0x1_0000
  const ATTR_FLAG_RNDV: bv64 := 0x2_0000

  datatype AmData =
    | Eager(bytes: seq<Byte>)
    | Data(buf: BufId, size: nat)
    | Rndv(buf: BufId, size: nat)
  {
    /** `AmData::len`. */
    function Len(): nat {
      if Eager? then |bytes| else size
    }
  }

  /** `AmData::from_raw`: eager data is copied, the rest keeps the buffer it arrived in. */
  function FromRaw(buf: BufId, bytes: seq<Byte>, attr: bv64): Option<AmData> {
    if bytes == [] then None
    else if attr & ATTR_FLAG_DATA != 0 then Some(Data(buf, |bytes|))
    else if attr & ATTR_FLAG_RNDV != 0 then Some(Rndv(buf, |bytes|))
    else Some(Eager(bytes))
  }

  /** What the receive callback answers; "in progress" tells UCX that the buffer is retained. */
  function CallbackAnswer(attr: bv64): Status {
    if attr & (ATTR_FLAG_DATA | ATTR_FLAG_RNDV) != 0 then UCS_INPROGRESS else UCS_OK
  }

  /** The buffer of UCX that a message has to dispose of. */
  function Buffer(data: Option<AmData>): Option<BufId> {
    match data
    case Some(Data(buf, _)) => Some(buf)
    case Some(Rndv(buf, _)) => Some(buf)
    case _ => None
  }

  /**
   The message keeps the buffer exactly when the callback told UCX so, except that an empty payload is
   dropped whatever its flags: then UCX was told "retained" and nothing will ever release the buffer.
   */
  lemma ClassificationAgrees(buf: BufId, bytes: seq<Byte>, attr: bv64)
    ensures Buffer(FromRaw(buf, bytes, attr)) == Some(buf) <==> CallbackAnswer(attr) == UCS_INPROGRESS && bytes != []
    ensures Buffer(FromRaw(buf, bytes, attr)) in {None, Some(buf)}
    ensures FromRaw(buf, bytes, attr) == None <==> bytes == []
    ensures FromRaw(buf, bytes, attr) == Some(Eager(bytes)) <==> CallbackAnswer(attr) == UCS_OK && bytes != []
    ensures FromRaw(buf, bytes, attr) == Some(Data(buf, |bytes|)) <==> attr & ATTR_FLAG_DATA != 0 && bytes != []
    ensures FromRaw(buf, bytes, attr) == Some(Rndv(buf, |bytes|)) <==>
            attr & ATTR_FLAG_DATA == 0 && attr & ATTR_FLAG_RNDV != 0 && bytes != []
    ensures CallbackAnswer(attr) == UCS_OK <==> attr & ATTR_FLAG_DATA == 0 && attr & ATTR_FLAG_RNDV == 0
    ensures FromRaw(buf, bytes, attr).Some? ==> FromRaw(buf, bytes, attr).value.Len() == |bytes|
  {
    assert attr & (ATTR_FLAG_DATA | ATTR_FLAG_RNDV) != 0 <==> attr & ATTR_FLAG_DATA != 0 || attr & ATTR_FLAG_RNDV != 0;
  }

  /** What a receive or a drop does with the buffer: `Forget` is taking the data out and then failing. */
  datatype Effect = Nothing | Release(buf: BufId) | HandOver(buf: BufId) | Forget(buf: BufId)

  /**
   The effect of a receive. `fits` says whether the payload fits the buffers offered, and `word` is UCX's
   answer if a rendezvous receive is issued; a refused one leaves the buffer with nobody to release it.
   */
  function ReceiveEffect(data: Option<AmData>, fits: bool, word: Word): Effect {
    match data
    case Some(Data(buf, _)) => if fits then Release(buf) else Forget(buf)
    case Some(Rndv(buf, _)) => if IsErr(word) then Forget(buf) else HandOver(buf)
    case _ => Nothing
  }

  function DropEffect(data: Option<AmData>): Effect {
    match Buffer(data)
    case Some(buf) => Release(buf)
    case None => Nothing
  }

  /** Every way to end a message disposes of exactly the buffer it holds, and only a failed receive forgets it. */
  lemma EffectsSettleTheBuffer(data: Option<AmData>, fits: bool, word: Word)
    ensures ReceiveEffect(data, fits, word) == Nothing <==> Buffer(data) == None
    ensures ReceiveEffect(data, fits, word) != Nothing ==> Buffer(data) == Some(ReceiveEffect(data, fits, word).buf)
    ensures ReceiveEffect(data, fits, word).Forget? <==>
            data.Some? && ((data.value.Data? && !fits) || (data.value.Rndv? && IsErr(word)))
    ensures ReceiveEffect(data, fits, word).Release? <==> data.Some? && data.value.Data? && fits
    ensures DropEffect(data) == Nothing <==> Buffer(data) == None
    ensures DropEffect(data) != Nothing ==> DropEffect(data).Release? && Buffer(data) == Some(DropEffect(data).buf)
  {
  }

  /** UCX's side: the buffers it lends, and the calls that gave buffers back to it. */
  datatype UcxSide = UcxSide(lent: map<BufId, seq<Byte>>, released: seq<BufId>, handed: seq<BufId>)

  /** UCX after an effect on a buffer it lends. */
  function After(side: UcxSide, effect: Effect): UcxSide {
    match effect
    case Release(buf) => side.(lent := side.lent - {buf}, released := side.released + [buf])
    case HandOver(buf) => side.(lent := side.lent - {buf}, handed := side.handed + [buf])
    case _ => side
  }

  /** A message may only point at a buffer that UCX still lends. */
  predicate Backed(data: Option<AmData>, side: UcxSide) {
    Buffer(data).Some? ==>
      Buffer(data).value in side.lent && |side.lent[Buffer(data).value]| == data.value.Len()
  }

  /** The bytes of a message that need no further receive. */
  function Payload(data: Option<AmData>, side: UcxSide): Option<seq<Byte>>
    requires Backed(data, side)
  {
    match data
    case None => Some([])
    case Some(Eager(bytes)) => Some(bytes)
    case Some(Data(buf, _)) => Some(side.lent[buf])
    case Some(Rndv(_, _)) => None
  }

  /** A message that came with some bytes has them for its payload, unless they are still to be received. */
  lemma PayloadIsWhatCame(buf: BufId, bytes: seq<Byte>, attr: bv64, side: UcxSide)
    requires CallbackAnswer(attr) == UCS_INPROGRESS ==> buf in side.lent && side.lent[buf] == bytes
    ensures Backed(FromRaw(buf, bytes, attr), side)
    ensures var toReceive := attr & ATTR_FLAG_DATA == 0 && attr & ATTR_FLAG_RNDV != 0 && bytes != [];
            Payload(FromRaw(buf, bytes, attr), side) == if toReceive then None else Some(bytes)
  {
    ClassificationAgrees(buf, bytes, attr);
  }

  /** UCX as the object behind the worker's handle. */
  class UcxBuffers {
    var side: UcxSide

    constructor (side: UcxSide)
      ensures this.side == side
    {
      this.side := side;
    }

    /** Reading a received slice. */
    method Read(buf: BufId) returns (bytes: seq<Byte>)
      requires buf in side.lent
      ensures bytes == side.lent[buf]
    {
      bytes := side.lent[buf];
    }

    /** `ucp_am_data_release`. */
    method DataRelease(buf: BufId)
      requires buf in side.lent
      modifies this
      ensures side == After(old(side), Release(buf))
    {
      side := side.(lent := side.lent - {buf}, released := side.released + [buf]);
    }

    /** `ucp_am_recv_data_nbx`, which takes the buffer unless it answers with an error. */
    method RecvDataNbx(buf: BufId, word: Word)
      requires buf in side.lent
      modifies this
      ensures side == After(old(side), if IsErr(word) then Forget(buf) else HandOver(buf))
    {
      if !IsErr(word) {
        side := side.(lent := side.lent - {buf}, handed := side.handed + [buf]);
      }
    }
  }

  class AmMsg {
    const ucx: UcxBuffers
    var data: Option<AmData>

    ghost predicate Valid()
      reads this, ucx
    {
      Backed(data, ucx.side)
    }

    constructor (ucx: UcxBuffers, data: Option<AmData>)
      ensures this.ucx == ucx && this.data == data
    {
      this.ucx, this.data := ucx, data;
    }

    predicate ContainsData()
      reads this
    {
      data.Some?
    }

    /** `None` when the data is still to be received. */
    method GetData() returns (bytes: Option<seq<Byte>>)
      requires Valid()
      ensures bytes == Payload(data, ucx.side)
    {
      match data
      case None => bytes := Some([]);
      case Some(Eager(present)) => bytes := Some(present);
      case Some(Data(buf, _)) =>
        var present := ucx.Read(buf);
        bytes := Some(present);
      case Some(Rndv(_, _)) => bytes := None;
    }

    function DataLen(): nat
      reads this
    {
      match data
      case None => 0
      case Some(present) => present.Len()
    }

    /** `drop_msg`. */
    method DropMsg(taken: AmData)
      requires Backed(Some(taken), ucx.side)
      modifies ucx
      ensures ucx.side == After(old(ucx.side), DropEffect(Some(taken)))
    {
      match taken
      case Eager(_) =>
      case Data(buf, _) => ucx.DataRelease(buf);
      case Rndv(buf, _) => ucx.DataRelease(buf);
    }

    /** `Drop`: whatever was not received is released, once. */
    method Drop()
      requires Valid()
      modifies this`data, ucx
      ensures data == None && Valid()
      ensures ucx.side == After(old(ucx.side), DropEffect(old(data)))
    {
      match data
      case None =>
      case Some(taken) =>
        data := None;
        DropMsg(taken);
    }

    /** The data branch: copy, and release only if the copy succeeded. */
    method CopyOut(buf: BufId, size: nat, iov: seq<array<Byte>>) returns (result: Result<nat, Error>)
      requires Backed(Some(Data(buf, size)), ucx.side) && Disjoint(iov)
      modifies ucx, iov
      ensures CopyOutcome(old(ucx.side).lent[buf], old(Contents(iov)), Contents(iov), result)
      ensures ucx.side == if result.Success? then After(old(ucx.side), Release(buf)) else old(ucx.side)
    {
      var bytes := ucx.Read(buf);
      result := CopyDataToIov(bytes, iov);
      if result.Success? {
        ghost var after := Contents(iov);
        DropMsg(Data(buf, size));
        assert Contents(iov) == after;
      }
    }

    /** The rendezvous branch, which neither releases nor restores a buffer that UCX refuses. */
    method ReceiveRendezvous(buf: BufId, size: nat, word: Word) returns (result: Result<nat, Error>)
      requires buf in ucx.side.lent
      modifies ucx
      ensures ucx.side == After(old(ucx.side), if IsErr(word) then Forget(buf) else HandOver(buf))
      ensures result == if IsErr(word) then Failure(Error(RawStatus(word))) else Success(size)
    {
      ucx.RecvDataNbx(buf, word);
      ExactlyOneKind(word);
      if IsNull(word) || IsPtr(word) {
        result := Success(size);
      } else {
        result := Failure(FromPtr(word).error);
      }
    }

    /**
     `recv_data_vectored`; `word` is UCX's answer if a rendezvous receive is issued. Whatever happens the
     message is empty afterwards: the buffer of a truncated or refused payload stays lent for good.
     */
    method RecvDataVectored(iov: seq<array<Byte>>, word: Word) returns (result: Result<nat, Error>)
      requires Valid() && Disjoint(iov)
      modifies this`data, ucx, iov
      ensures Valid() && !ContainsData() && DataLen() == 0
      ensures var fits := old(DataLen()) <= |Concat(old(Contents(iov)))|;
              ucx.side == After(old(ucx.side), ReceiveEffect(old(data), fits, word))
      ensures old(data) == None ==> result == Success(0) && Contents(iov) == old(Contents(iov))
      ensures old(Payload(data, ucx.side)) == None ==>
                result == if IsErr(word) then Failure(Error(RawStatus(word))) else Success(old(DataLen()))
      ensures old(data).Some? && old(Payload(data, ucx.side)).Some? ==>
                CopyOutcome(old(Payload(data, ucx.side)).value, old(Contents(iov)), Contents(iov), result)
    {
      var taken := data;
      data := None;
      match taken
      case None =>
        result := Success(0);
      case Some(Eager(bytes)) =>
        result := CopyDataToIov(bytes, iov);
      case Some(Data(buf, size)) =>
        result := CopyOut(buf, size, iov);
      case Some(Rndv(buf, size)) =>
        result := ReceiveRendezvous(buf, size, word);
    }

    /** `recv_data_single`: one buffer. */
    method RecvDataSingle(buffer: array<Byte>, word: Word) returns (result: Result<nat, Error>)
      requires Valid()
      modifies this`data, ucx, buffer
      ensures Valid() && !ContainsData() && DataLen() == 0
      ensures var fits := old(DataLen()) <= buffer.Length;
              ucx.side == After(old(ucx.side), ReceiveEffect(old(data), fits, word))
      ensures old(data) == None ==> result == Success(0) && buffer[..] == old(buffer[..])
      ensures old(Payload(data, ucx.side)) == None ==>
                result == if IsErr(word) then Failure(Error(RawStatus(word))) else Success(old(DataLen()))
      ensures old(data).Some? && old(Payload(data, ucx.side)).Some? ==>
                var bytes := old(Payload(data, ucx.side)).value;
                if buffer.Length < |bytes|
                then result == Failure(Error(UCS_ERR_MESSAGE_TRUNCATED)) && buffer[..] == old(buffer[..])
                else result == Success(|bytes|) && buffer[..] == bytes + old(buffer[..])[|bytes|..]
    {
      if !ContainsData() {
        return Success(0);
      }
      var iov := [buffer];
      ghost var before := Contents(iov);
      ghost var payload := Payload(data, ucx.side);
      ConcatOne(before);
      result := RecvDataVectored(iov, word);
      ConcatOne(Contents(iov));
      if payload.Some? && result.Success? {
        WholePayloadIff(payload.value, before, Contents(iov), result.value);
      }
    }

    /** `recv_data`: the payload as a new vector. */
    method RecvData(word: Word) returns (result: Result<seq<Byte>, Error>)
      requires Valid()
      modifies this`data, ucx
      ensures Valid() && !ContainsData() && DataLen() == 0
      ensures ucx.side == After(old(ucx.side), ReceiveEffect(old(data), true, word))
      ensures match old(Payload(data, ucx.side))
              case Some(bytes) => result == Success(bytes)
              case None =>
                if IsErr(word) then result == Failure(Error(RawStatus(word)))
                else result.Success? && |result.value| == old(DataLen())
    {
      var taken := data;
      data := None;
      match taken
      case None =>
        result := Success([]);
      case Some(Eager(bytes)) =>
        result := Success(bytes);
      case Some(Data(buf, size)) =>
        var bytes := ucx.Read(buf);
        DropMsg(Data(buf, size));
        result := Success(bytes);
      case Some(Rndv(buf, size)) =>
        data := Some(Rndv(buf, size));
        var len := DataLen();
        var buffer := new Byte[len];
        var received := RecvDataSingle(buffer, word);
        match received
        case Success(n) => result := Success(buffer[..n]);
        case Failure(error) => result := Failure(error);
    }
  }

  lemma ConcatOne(bufs: seq<seq<Byte>>)
    requires |bufs| == 1
    ensures Concat(bufs) == bufs[0]
  {
    assert bufs[..0] == [];
  }

  // ---- The routes together ----

  /** Three messages with the same payload, received by the three routes into room enough, yield the same bytes. */
  method RoutesAgree(first: AmMsg, second: AmMsg, third: AmMsg, buffer: array<Byte>, iov: seq<array<Byte>>, word: Word)
    returns (bytes: seq<Byte>, single: nat, many: nat)
    requires first.Valid() && second.Valid() && third.Valid()
    requires first != second && second != third && third != first
    requires first.ucx != second.ucx && second.ucx != third.ucx && third.ucx != first.ucx
    requires var payload := Payload(first.data, first.ucx.side);
             && payload.Some?
             && payload == Payload(second.data, second.ucx.side) == Payload(third.data, third.ucx.side)
             && |payload.value| <= buffer.Length
             && |payload.value| <= |Concat(Contents(iov))|
    requires Disjoint(iov) && buffer !in iov && [] !in Contents(iov)
    modifies first`data, second`data, third`data, first.ucx, second.ucx, third.ucx, buffer, iov
    ensures bytes == old(Payload(first.data, first.ucx.side)).value
    ensures single <= buffer.Length && buffer[..single] == bytes
    ensures many <= |Concat(Contents(iov))| && Concat(Contents(iov))[..many] == bytes
    ensures !first.ContainsData() && !second.ContainsData() && !third.ContainsData()
  {
    ghost var before := Contents(iov);
    ghost var payload := Payload(third.data, third.ucx.side).value;
    var v := first.RecvData(word);
    var n := second.RecvDataSingle(buffer, word);
    assert Contents(iov) == before;
    ghost var held := third.data;
    var m := third.RecvDataVectored(iov, word);
    bytes, single, many := v.value, n.value, m.value;
    if held.Some? {
      NoEmptyBuffersDeliverAll(payload, before, Contents(iov), many);
    }
  }

  /** A call of one of the receive routes. */
  datatype Call =
    | ByValue(word: Word)
    | IntoOne(buffer: array<Byte>, word: Word)
    | IntoMany(iov: seq<array<Byte>>, word: Word)

  ghost function BuffersOf(call: Call): set<array<Byte>> {
    match call
    case ByValue(_) => {}
    case IntoOne(buffer, _) => {buffer}
    case IntoMany(iov, _) => set b | b in iov
  }

  /** Whether a payload of the given size has room. */
  ghost predicate Fits(call: Call, size: nat)
    reads BuffersOf(call)
  {
    match call
    case ByValue(_) => true
    case IntoOne(buffer, _) => size <= buffer.Length
    case IntoMany(iov, _) => size <= |Concat(Contents(iov))|
  }

  predicate Callable(call: Call) {
    call.IntoMany? ==> forall i, j :: 0 <= i < j < |call.iov| ==> call.iov[i] != call.iov[j]
  }

  /** What a call returned: `recv_data` a vector, the others a count. */
  datatype Received = Vector(bytes: Result<seq<Byte>, Error>) | Count(count: Result<nat, Error>)

  /** How many bytes it says were received. */
  function Yield(received: Received): nat {
    match received
    case Vector(Success(bytes)) => |bytes|
    case Count(Success(n)) => n
    case _ => 0
  }

  function Failed(received: Received): bool {
    match received
    case Vector(result) => result.Failure?
    case Count(result) => result.Failure?
  }

  /** Any call on any message: the message is empty afterwards, and on an empty one nothing happens. */
  method ReceiveOnce(msg: AmMsg, call: Call) returns (received: Received)
    requires msg.Valid() && Callable(call)
    modifies msg`data, msg.ucx, BuffersOf(call)
    ensures msg.Valid() && !msg.ContainsData()
    ensures msg.ucx.side ==
            After(old(msg.ucx.side), ReceiveEffect(old(msg.data), old(Fits(call, msg.DataLen())), call.word))
    ensures Yield(received) <= old(msg.DataLen())
    ensures old(msg.data) == None ==> !Failed(received)
    ensures old(msg.data) == None ==> forall b :: b in BuffersOf(call) ==> b[..] == old(b[..])
  {
    match call
    case ByValue(word) =>
      var bytes := msg.RecvData(word);
      received := Vector(bytes);
    case IntoOne(buffer, word) =>
      var n := msg.RecvDataSingle(buffer, word);
      received := Count(n);
    case IntoMany(iov, word) =>
      ghost var before := Contents(iov);
      var n := msg.RecvDataVectored(iov, word);
      received := Count(n);
      assert old(msg.data) == None ==> forall i :: 0 <= i < |iov| ==> iov[i][..] == before[i];
  }

  /**
   Any sequence of receives on one message: the payload comes at most once, only the first call can yield
   bytes or fail, it alone settles the buffer, and the message is empty from then on.
   */
  method ReceiveRepeatedly(msg: AmMsg, calls: seq<Call>) returns (received: seq<Received>)
    requires msg.Valid() && forall i :: 0 <= i < |calls| ==> Callable(calls[i])
    modifies msg`data, msg.ucx, set i, b | 0 <= i < |calls| && b in BuffersOf(calls[i]) :: b
    ensures |received| == |calls| && msg.Valid()
    ensures calls != [] ==> !msg.ContainsData()
    ensures forall i :: 0 <= i < |calls| ==> Yield(received[i]) <= old(msg.DataLen())
    ensures forall i :: 1 <= i < |calls| ==> Yield(received[i]) == 0 && !Failed(received[i])
    ensures forall i, j :: 0 <= i < j < |calls| ==> Yield(received[i]) == 0 || Yield(received[j]) == 0
    ensures calls != [] ==>
              var fits := old(Fits(calls[0], msg.DataLen()));
              msg.ucx.side == After(old(msg.ucx.side), ReceiveEffect(old(msg.data), fits, calls[0].word))
  {
    received := [];
    for k := 0 to |calls|
      invariant |received| == k && msg.Valid()
      invariant k > 0 ==> !msg.ContainsData()
      invariant forall i :: 0 <= i < k ==> Yield(received[i]) <= old(msg.DataLen())
      invariant forall i :: 1 <= i < k ==> Yield(received[i]) == 0 && !Failed(received[i])
      invariant k == 0 ==> msg.data == old(msg.data) && msg.ucx.side == old(msg.ucx.side)
      invariant k == 0 && calls != [] ==> Fits(calls[0], msg.DataLen()) == old(Fits(calls[0], msg.DataLen()))
      invariant k > 0 ==>
                  var fits := old(Fits(calls[0], msg.DataLen()));
                  msg.ucx.side == After(old(msg.ucx.side), ReceiveEffect(old(msg.data), fits, calls[0].word))
    {
      var next := ReceiveOnce(msg, calls[k]);
      received := received + [next];
    }
  }
}
