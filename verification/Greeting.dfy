/**
 The four bytes that a connecting endpoint sends first and an accepting one swallows, so that the
 connection is made before the user has it. Neither user should notice them.
 */
module Greeting {
  import opened Wrappers
  import opened Runs
  import opened Scatter

  const GREETING: seq<Byte> := [0, 1, 2, 3]

  /** `wire` is everything sent and `taken` how much of it was received; `sent` and `read` are the users' own bytes. */
  datatype State = State(wire: seq<Byte>, taken: nat, sent: seq<Byte>, read: seq<Byte>, connected: bool, accepted: bool)

  datatype Step =
    | Connect
    | Accept(count: nat)
    | Send(bytes: seq<Byte>)
    | Receive(count: nat)

  function Init(): State {
    State([], 0, [], [], false, false)
  }

  /** A stream receive takes the next bytes in order, at most as many as were sent and as it has room for. */
  predicate Enabled(s: State, step: Step) {
    match step
    case Connect => !s.connected
    case Accept(n) => !s.accepted && n <= |GREETING| && s.taken + n <= |s.wire|
    case Send(_) => s.connected
    case Receive(n) => s.accepted && s.taken + n <= |s.wire|
  }

  function Next(s: State, step: Step): Option<State> {
    if !Enabled(s, step) then None else
      Some(match step
           case Connect => s.(wire := s.wire + GREETING, connected := true)
           case Accept(n) => s.(taken := s.taken + n, accepted := true)
           case Send(bytes) => s.(wire := s.wire + bytes, sent := s.sent + bytes)
           case Receive(n) => s.(taken := s.taken + n, read := s.read + s.wire[s.taken..s.taken + n]))
  }

  /** A machine in which the accepting side's first receive gets exactly `whole` bytes. */
  function NextGreeted(whole: nat): (State, Step) -> Option<State> {
    (s: State, step: Step) => if step.Accept? && step.count != whole then None else Next(s, step)
  }

  ghost predicate Inv(s: State, whole: nat) {
    && s.wire == (if s.connected then GREETING + s.sent else [])
    && (!s.connected ==> s.sent == [])
    && whole <= |GREETING|
    && (if s.accepted then whole <= s.taken <= |s.wire| && s.read == s.wire[whole..s.taken]
        else s.taken == 0 && s.read == [])
  }

  lemma SliceGrows(wire: seq<Byte>, more: seq<Byte>, i: nat, j: nat, n: nat)
    requires i <= j && j + n <= |wire|
    ensures (wire + more)[i..j] == wire[i..j]
    ensures wire[i..j] + wire[j..j + n] == wire[i..j + n]
  {
  }

  lemma SendKeepsInv(s: State, bytes: seq<Byte>, whole: nat)
    requires Inv(s, whole) && s.connected
    ensures Inv(Next(s, Send(bytes)).value, whole)
  {
    assert GREETING + (s.sent + bytes) == GREETING + s.sent + bytes;
    if s.accepted {
      SliceGrows(s.wire, bytes, whole, s.taken, 0);
    }
  }

  lemma ReceiveKeepsInv(s: State, n: nat, whole: nat)
    requires Inv(s, whole) && Enabled(s, Receive(n))
    ensures Inv(Next(s, Receive(n)).value, whole)
  {
    SliceGrows(s.wire, [], whole, s.taken, n);
  }

  lemma StepKeepsInv(s: State, step: Step, whole: nat)
    requires Inv(s, whole) && NextGreeted(whole)(s, step).Some?
    ensures Inv(NextGreeted(whole)(s, step).value, whole)
  {
    match step
    case Connect =>
      assert GREETING + [] == GREETING && [] + GREETING == GREETING;
      assert s.accepted ==> s.taken == 0;
    case Accept(_) =>
    case Send(bytes) => SendKeepsInv(s, bytes, whole);
    case Receive(n) => ReceiveKeepsInv(s, n, whole);
  }

  predicate Possible(steps: seq<Step>, whole: nat) {
    Run(NextGreeted(whole), Init(), steps).Some?
  }

  function Reached(steps: seq<Step>, whole: nat): State
    requires Possible(steps, whole)
  {
    Run(NextGreeted(whole), Init(), steps).value
  }

  lemma {:induction false} RunKeepsInv(steps: seq<Step>, whole: nat)
    requires whole <= |GREETING| && Possible(steps, whole)
    ensures Inv(Reached(steps, whole), whole)
  {
    var next := NextGreeted(whole);
    forall t, l | Inv(t, whole) && next(t, l).Some? ensures Inv(next(t, l).value, whole) {
      StepKeepsInv(t, l, whole);
    }
    Preserved(next, t => Inv(t, whole), Init(), steps);
  }

  /** What the accepting user reads, when its hidden receive got `whole` bytes, is the stream from there on. */
  lemma {:induction false} ReadsFollowTheStream(steps: seq<Step>, whole: nat)
    requires whole <= |GREETING| && Possible(steps, whole)
    ensures Reached(steps, whole).read <= (GREETING + Reached(steps, whole).sent)[whole..]
  {
    RunKeepsInv(steps, whole);
  }

  /** What the connecting user sent, and how much the accepting user received, by the steps alone. */
  function SentBy(steps: seq<Step>): seq<Byte> {
    if steps == [] then []
    else
      var last := steps[|steps| - 1];
      SentBy(steps[..|steps| - 1]) + (if last.Send? then last.bytes else [])
  }

  function ReceivedBy(steps: seq<Step>): nat {
    if steps == [] then 0
    else
      var last := steps[|steps| - 1];
      ReceivedBy(steps[..|steps| - 1]) + (if last.Receive? then last.count else 0)
  }

  /**
   The users' own bytes: all that was sent, and of the stream past the `whole` bytes that were swallowed as
   much as was received, so nothing is skipped or made up.
   */
  lemma {:induction false} ReadsAreWhatWasReceived(steps: seq<Step>, whole: nat)
    requires whole <= |GREETING| && Possible(steps, whole)
    ensures Reached(steps, whole).sent == SentBy(steps)
    ensures var n := ReceivedBy(steps);
            |Reached(steps, whole).read| == n &&
            (n > 0 ==> whole + n <= |GREETING + SentBy(steps)|
                       && Reached(steps, whole).read == (GREETING + SentBy(steps))[whole..whole + n])
  {
    CountsAreRight(steps, whole);
    RunKeepsInv(steps, whole);
  }

  lemma {:induction false} CountsAreRight(steps: seq<Step>, whole: nat)
    requires Possible(steps, whole)
    ensures Reached(steps, whole).sent == SentBy(steps) && |Reached(steps, whole).read| == ReceivedBy(steps)
    decreases |steps|
  {
    if steps == [] {
      assert SentBy(steps) == [] && ReceivedBy(steps) == 0;
    } else {
      CountsAreRight(steps[..|steps| - 1], whole);
    }
  }

  /** The user's sends and receives never show the greeting. */
  ghost predicate Invisible(whole: nat) {
    forall steps :: Possible(steps, whole) ==> Reached(steps, whole).read <= Reached(steps, whole).sent
  }

  lemma WholeGreetingIsInvisible()
    ensures Invisible(|GREETING|)
  {
    forall steps | Possible(steps, |GREETING|)
      ensures Reached(steps, |GREETING|).read <= Reached(steps, |GREETING|).sent
    {
      ReadsFollowTheStream(steps, |GREETING|);
      var sent := Reached(steps, |GREETING|).sent;
      assert (GREETING + sent)[|GREETING|..] == sent;
    }
  }

  /** A user who sends nothing is nevertheless heard. */
  lemma PartialGreetingIsVisible(whole: nat)
    requires whole < |GREETING|
    ensures !Invisible(whole)
  {
    var steps := [Connect, Accept(whole), Receive(1)];
    var next := NextGreeted(whole);
    var s1 := Next(Init(), Connect).value;
    var s2 := Next(s1, Accept(whole)).value;
    var s3 := Next(s2, Receive(1)).value;
    RunSnoc(next, Init(), [], Connect);
    RunSnoc(next, Init(), [] + [Connect], Accept(whole));
    RunSnoc(next, Init(), [] + [Connect] + [Accept(whole)], Receive(1));
    assert steps == [] + [Connect] + [Accept(whole)] + [Receive(1)];
    assert Possible(steps, whole) && Reached(steps, whole) == s3;
    assert |s3.read| == 1 && s3.sent == [];
  }

  /**
   For any chunking of later sends and receives, what the accepting user reads is a prefix of what the
   connecting user sent, exactly if the first receive got the greeting whole.
   */
  lemma GreetingIsInvisibleIffWhole(whole: nat)
    requires whole <= |GREETING|
    ensures Invisible(whole) <==> whole == |GREETING|
  {
    if whole == |GREETING| {
      WholeGreetingIsInvisible();
    } else {
      PartialGreetingIsVisible(whole);
    }
  }
}
