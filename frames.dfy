/**
 * The frame assembler of BsEventBroker (ReceiveAllTextAsync): the socket's
 * receive results are read one at a time into a byte buffer until a fragment
 * ends the message, a close frame arrives, or 1000 receives have been made.
 */
module Frames {
  import opened Wrappers

  newtype byte = x: int | 0 <= x < 256

  /** The most receives one call of the assembler makes (the `for` bound). */
  const MaxFragments: nat := 1000

  /**
   * Why the receive loop ended. `Normal` is a return; the three others are
   * the exceptions RunAsync catches: OperationCanceledException,
   * WebSocketException and any other Exception.
   */
  datatype ExitReason = Normal | Cancelled | WebSocketError | OtherError

  /** An exception raised by the socket. */
  type Fault = r: ExitReason | !r.Normal? witness Cancelled

  /**
   * One WebSocketReceiveResult together with the bytes it placed in the
   * receive buffer; `payload` is recvBuffer[0..Count].
   */
  datatype Fragment = Fragment(isClose: bool, payload: seq<byte>, endOfMessage: bool)
  {
    function Count(): nat { |payload| }
  }

  /** What one call of ReceiveAsync does: deliver a fragment or throw. */
  datatype Receipt = Frame(fragment: Fragment) | Raise(fault: Fault)

  /** The (isClosed, text) pair ReceiveAllTextAsync returns; `None` is a null text. */
  datatype ReceiveResult = ReceiveResult(isClosed: bool, text: Option<string>)

  const ClosedResult := ReceiveResult(true, Some(""))
  const NoMessage := ReceiveResult(false, None)

  /** The outcome of one assembler call and how many receipts it consumed. */
  datatype Assembly = Assembly(result: Result<ReceiveResult, Fault>, used: nat)

  /**
   * The assembler with `budget` receives left and `buffer` holding the bytes
   * written so far; `exhausted` is what a receive throws once `rs` is used up.
   */
  function Assemble(utf8: seq<byte> -> string, rs: seq<Receipt>, exhausted: Fault,
                    budget: nat, buffer: seq<byte>): (a: Assembly)
    ensures a.used <= budget && a.used <= |rs|
    ensures a.result.Success? && budget > 0 ==> a.used >= 1
    decreases budget
  {
    if budget == 0 then Assembly(Success(NoMessage), 0)
    else if rs == [] then Assembly(Failure(exhausted), 0)
    else match rs[0]
      case Raise(f) => Assembly(Failure(f), 1)
      case Frame(fr) =>
        if fr.isClose then Assembly(Success(ClosedResult), 1)
        else
          var buffer' := Written(buffer, fr);
          if fr.endOfMessage then Assembly(Success(ReceiveResult(false, Some(utf8(buffer')))), 1)
          else
            Shift(Assemble(utf8, rs[1..], exhausted, budget - 1, buffer'), 1)
  }

  /** The bytes the buffer holds after `fr` is received into it (ms.Write when Count > 0). */
  function Written(buffer: seq<byte>, fr: Fragment): seq<byte>
  {
    if fr.Count() > 0 then buffer + fr.payload else buffer
  }

  /** The same assembly seen from `n` receipts earlier. */
  function Shift(a: Assembly, n: nat): Assembly
  {
    Assembly(a.result, a.used + n)
  }

  /** A data fragment that does not end the message hands over to the next receive. */
  lemma AssembleContinues(utf8: seq<byte> -> string, rs: seq<Receipt>, exhausted: Fault,
                          budget: nat, buffer: seq<byte>)
    requires budget > 0 && rs != [] && !Stops(rs[0])
    ensures Assemble(utf8, rs, exhausted, budget, buffer)
            == Shift(Assemble(utf8, rs[1..], exhausted, budget - 1, Written(buffer, rs[0].fragment)), 1)
  {
  }

  /** A receipt that stops the loop ends the call after one receive, as `Ending` says. */
  lemma AssembleStops(utf8: seq<byte> -> string, rs: seq<Receipt>, exhausted: Fault,
                      budget: nat, buffer: seq<byte>)
    requires budget > 0 && rs != [] && Stops(rs[0])
    ensures Assemble(utf8, rs, exhausted, budget, buffer) == Assembly(Ending(utf8, rs[0], buffer), 1)
  {
  }

  /** One receive: a stopping receipt ends the call, any other hands over to the next receive. */
  lemma AssembleStep(utf8: seq<byte> -> string, rs: seq<Receipt>, exhausted: Fault,
                     budget: nat, buffer: seq<byte>)
    requires budget > 0 && rs != []
    ensures Assemble(utf8, rs, exhausted, budget, buffer)
            == if Stops(rs[0]) then Assembly(Ending(utf8, rs[0], buffer), 1)
               else Shift(Assemble(utf8, rs[1..], exhausted, budget - 1, Written(buffer, rs[0].fragment)), 1)
  {
  }

  /** One call of ReceiveAllTextAsync: a fresh buffer and the full budget. */
  function ReceiveAll(utf8: seq<byte> -> string, rs: seq<Receipt>, exhausted: Fault): Assembly
  {
    Assemble(utf8, rs, exhausted, MaxFragments, [])
  }

  /** A receipt that ends the assembler's loop. */
  predicate Stops(r: Receipt)
  {
    r.Raise? || r.fragment.isClose || r.fragment.endOfMessage
  }

  /** The bytes a receipt contributes to the message: a data fragment's payload. */
  function Contribution(r: Receipt): seq<byte>
  {
    if r.Frame? && !r.fragment.isClose then r.fragment.payload else []
  }

  /** The bytes the data fragments among `rs` write into the buffer, in order. */
  function Payloads(rs: seq<Receipt>): seq<byte>
  {
    if rs == [] then [] else Contribution(rs[0]) + Payloads(rs[1..])
  }

  /** Writing a data fragment appends its payload, empty or not. */
  lemma WrittenAppends(buffer: seq<byte>, fr: Fragment)
    requires !fr.isClose
    ensures Written(buffer, fr) == buffer + Contribution(Frame(fr))
  {
    if fr.Count() == 0 {
      assert buffer + fr.payload == buffer;
    }
  }

  /**
   * How a receipt that stops the loop ends the call when `buffer` holds the
   * bytes written before it: a fault is rethrown, a close frame gives
   * (true, ""), a final data fragment gives the decoding of the buffer with
   * its payload written.
   */
  function Ending(utf8: seq<byte> -> string, r: Receipt, buffer: seq<byte>): Result<ReceiveResult, Fault>
  {
    match r
    case Raise(f) => Failure(f)
    case Frame(fr) =>
      if fr.isClose then Success(ClosedResult)
      else Success(ReceiveResult(false, Some(utf8(Written(buffer, fr)))))
  }

  /**
   * The assembler, stated without recursion: when the first receipt that
   * stops it is the `k`-th, within the budget, it consumes `k + 1` receipts
   * and ends as that receipt says, with every payload before it appended to
   * what the buffer held.
   */
  lemma {:induction false} AssembleCharacterized(utf8: seq<byte> -> string, rs: seq<Receipt>,
                                                  exhausted: Fault, budget: nat, buffer: seq<byte>, k: nat)
    requires k < budget && k < |rs| && Stops(rs[k])
    requires forall j :: 0 <= j < k ==> !Stops(rs[j])
    ensures Assemble(utf8, rs, exhausted, budget, buffer)
            == Assembly(Ending(utf8, rs[k], buffer + Payloads(rs[..k])), k + 1)
  {
    if k == 0 {
      AssembleStops(utf8, rs, exhausted, budget, buffer);
      assert buffer + Payloads(rs[..0]) == buffer;
    } else {
      assert !Stops(rs[0]);
      var fr := rs[0].fragment;
      AssembleContinues(utf8, rs, exhausted, budget, buffer);
      NoStopsInTail(rs, k);
      AssembleCharacterized(utf8, rs[1..], exhausted, budget - 1, Written(buffer, fr), k - 1);
      assert rs[1..][k - 1] == rs[k];
      BufferCarries(buffer, rs, k);
    }
  }

  /** Dropping a receipt that does not stop the loop keeps the rest stop-free. */
  lemma NoStopsInTail(rs: seq<Receipt>, k: nat)
    requires 0 < k <= |rs|
    requires forall j :: 0 <= j < k ==> !Stops(rs[j])
    ensures forall j :: 0 <= j < k - 1 ==> !Stops(rs[1..][j])
  {
    forall j | 0 <= j < k - 1 ensures !Stops(rs[1..][j]) {
      assert rs[1..][j] == rs[j + 1];
    }
  }

  /** The buffer after the first data fragment, then the rest's payloads, is every payload. */
  lemma BufferCarries(buffer: seq<byte>, rs: seq<Receipt>, k: nat)
    requires 0 < k <= |rs| && rs[0].Frame? && !rs[0].fragment.isClose
    ensures Written(buffer, rs[0].fragment) + Payloads(rs[1..][..k - 1]) == buffer + Payloads(rs[..k])
  {
    PayloadsUnfold(rs, k);
    WrittenAppends(buffer, rs[0].fragment);
    assert (buffer + Contribution(rs[0])) + Payloads(rs[1..][..k - 1])
           == buffer + (Contribution(rs[0]) + Payloads(rs[1..][..k - 1]));
  }

  /** The payloads of a non-empty prefix: the first receipt's, then the rest's. */
  lemma PayloadsUnfold(rs: seq<Receipt>, k: nat)
    requires 0 < k <= |rs|
    ensures Payloads(rs[..k]) == Contribution(rs[0]) + Payloads(rs[1..][..k - 1])
  {
    assert rs[..k][0] == rs[0] && rs[..k][1..] == rs[1..][..k - 1];
  }

  /** One complete, single-fragment text message. */
  function TextFrame(bytes: seq<byte>): Receipt
  {
    Frame(Fragment(false, bytes, true))
  }

  /**
   * The fragment cap: when none of the first `budget` receipts stops the
   * loop, the assembler gives (false, null) after exactly `budget` receives.
   */
  lemma {:induction false} AssembleCapsOut(utf8: seq<byte> -> string, rs: seq<Receipt>,
                                            exhausted: Fault, budget: nat, buffer: seq<byte>)
    requires budget <= |rs|
    requires forall j :: 0 <= j < budget ==> !Stops(rs[j])
    ensures Assemble(utf8, rs, exhausted, budget, buffer) == Assembly(Success(NoMessage), budget)
  {
    if budget > 0 {
      assert !Stops(rs[0]);
      AssembleContinues(utf8, rs, exhausted, budget, buffer);
      NoStopsInTail(rs, budget);
      AssembleCapsOut(utf8, rs[1..], exhausted, budget - 1, Written(buffer, rs[0].fragment));
    }
  }

  /**
   * A script that ends before any receipt stops the loop and before the cap
   * makes the next receive throw the script's final fault.
   */
  lemma {:induction false} AssembleRunsDry(utf8: seq<byte> -> string, rs: seq<Receipt>,
                                            exhausted: Fault, budget: nat, buffer: seq<byte>)
    requires |rs| < budget
    requires forall j :: 0 <= j < |rs| ==> !Stops(rs[j])
    ensures Assemble(utf8, rs, exhausted, budget, buffer) == Assembly(Failure(exhausted), |rs|)
  {
    if rs != [] {
      assert !Stops(rs[0]);
      AssembleContinues(utf8, rs, exhausted, budget, buffer);
      NoStopsInTail(rs, |rs|);
      AssembleRunsDry(utf8, rs[1..], exhausted, budget - 1, Written(buffer, rs[0].fragment));
    }
  }
}
