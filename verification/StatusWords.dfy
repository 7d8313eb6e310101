/**
 The word UCX returns from a non-blocking call: null for "done", the address of a request for
 "in progress", or a negative status sign-extended to 64 bits.
 */
module StatusWords {
  import opened Wrappers

  const WORD_COUNT: int := 0x1_0000_0000_0000_0000

  /** A `usize`. */
  type Word = w: int | 0 <= w < WORD_COUNT

  /** A `ucs_status_t`, one signed byte. */
  type Status = s: int | -128 <= s < 128

  // Values fixed by UCX's status header.
  const UCS_OK: Status := 0
  const UCS_INPROGRESS: Status := 1
  const UCS_ERR_MESSAGE_TRUNCATED: Status := -9
  const UCS_ERR_BUSY: Status := -15
  const UCS_ERR_CONNECTION_RESET: Status := -25
  const UCS_ERR_LAST: Status := -100

  /** An error of the crate, told apart by the status it was made from. */
  datatype Error = Error(status: Status)

  /** `status as usize`: sign extension to the width of a word. */
  function AsUsize(status: Status): Word {
    if status < 0 then status + WORD_COUNT else status
  }

  /** Subtraction of one as a release build does it: it wraps around at zero. */
  function WrappingPred(w: Word): Word {
    if w == 0 then WORD_COUNT - 1 else w - 1
  }

  predicate IsNull(w: Word) {
    w == 0
  }

  predicate IsErr(w: Word) {
    w >= AsUsize(UCS_ERR_LAST)
  }

  /** The pointer test of a release build. */
  predicate IsPtr(w: Word) {
    WrappingPred(w) < AsUsize(UCS_ERR_LAST) - 1
  }

  /** The pointer test of a build with overflow checks; `None` is the panic on subtracting from null. */
  function CheckedIsPtr(w: Word): Option<bool> {
    if w == 0 then None else Some(w - 1 < AsUsize(UCS_ERR_LAST) - 1)
  }

  /** `ptr as i8`: the low byte, read as a signed byte. */
  function RawStatus(w: Word): Status {
    var low := w % 256;
    if low < 128 then low else low - 256
  }

  function PtrStatus(w: Word): Status {
    if IsPtr(w) then UCS_INPROGRESS else RawStatus(w)
  }

  /** `Error::from_status`. */
  function FromStatus(status: Status): Result<(), Error> {
    if status == UCS_OK then Success(()) else Failure(Error(status))
  }

  /** `Error::from_ptr`. */
  function FromPtr(w: Word): Result<(), Error> {
    if IsErr(w) then Failure(Error(RawStatus(w))) else Success(())
  }

  /** Every word is exactly one of null, pointer and error. */
  lemma ExactlyOneKind(w: Word)
    ensures IsNull(w) || IsPtr(w) || IsErr(w)
    ensures !(IsNull(w) && IsPtr(w)) && !(IsPtr(w) && IsErr(w)) && !(IsNull(w) && IsErr(w))
  {
  }

  /** The two builds' pointer tests agree on every word but null, where only one of them answers. */
  lemma PointerTestsAgree(w: Word)
    ensures CheckedIsPtr(w) == Some(IsPtr(w)) <==> !IsNull(w)
  {
  }

  /** Decoding inverts encoding on every error status. */
  lemma DecodeEncode(status: Status)
    requires UCS_ERR_LAST <= status <= -1
    ensures IsErr(AsUsize(status))
    ensures RawStatus(AsUsize(status)) == status
  {
  }

  /** The error words are exactly the encodings of the error statuses, so encoding inverts decoding. */
  lemma EncodeDecode(w: Word)
    ensures IsErr(w) <==> UCS_ERR_LAST <= RawStatus(w) <= -1 && w == AsUsize(RawStatus(w))
  {
  }

  /** `UCS_PTR_STATUS` says "OK" for null, "in progress" for pointers and an error for the rest. */
  lemma PtrStatusMeaning(w: Word)
    ensures PtrStatus(w) == UCS_OK <==> IsNull(w)
    ensures PtrStatus(w) == UCS_INPROGRESS <==> IsPtr(w)
    ensures UCS_ERR_LAST <= PtrStatus(w) < 0 <==> IsErr(w)
  {
  }

  /**
   `Error::from_ptr(status).unwrap_err()` is safe exactly on the branch that is left after the null and
   pointer tests.
   */
  lemma UnwrapErrIsSafe(w: Word)
    ensures FromPtr(w).Failure? <==> !IsNull(w) && !IsPtr(w)
    ensures FromPtr(w).Failure? ==> FromPtr(w) == FromStatus(RawStatus(w))
  {
  }

  /** `tag_recv` awaits every word `from_ptr` accepts; that is a request exactly when UCX did not return null. */
  lemma AcceptedWordsAreRequests(w: Word)
    ensures FromPtr(w).Success? ==> (IsPtr(w) <==> !IsNull(w))
    ensures FromPtr(w).Failure? ==> !IsPtr(w)
  {
  }

  /** Decoding a word without testing it first is wrong: a page-aligned request would read as "OK". */
  lemma PointersMayDecodeToOk(w: Word)
    ensures RawStatus(w) == UCS_OK <==> w % 256 == 0
    ensures w == 0x1000 ==> IsPtr(w) && RawStatus(w) == UCS_OK
  {
  }
}
