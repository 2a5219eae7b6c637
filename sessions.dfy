/**
 * The receive loop of RunAsyncImpl after the connection is open, as a
 * function of the receipts the socket delivers: assemble, stop at a close,
 * skip a null text, decode and enqueue everything else, and stop when a
 * lookup in ParseReceived throws.
 */
module Sessions {
  import opened Wrappers
  import opened Frames
  import opened Envelopes

  /**
   * How the loop ended, what it enqueued in order, how many receipts it
   * read, and whether the socket is still open: it is when the loop was
   * left by an exception from ParseReceived rather than from the socket.
   */
  datatype Outcome = Outcome(exit: ExitReason, queued: seq<Message>, used: nat, open: bool)

  /** The messages the loop enqueues for one assembler result. */
  function Delivered(parse: string -> Option<Envelope>, rr: ReceiveResult): seq<Message>
  {
    match rr.text
    case None => []
    case Some(t) => Enqueued(parse, t)
  }

  /** An assembler result whose text makes ParseReceived throw. */
  predicate Escapes(parse: string -> Option<Envelope>, rr: ReceiveResult)
  {
    rr.text.Some? && Decode(parse, rr.text.value).Thrown?
  }

  function Session(codec: Codec, rs: seq<Receipt>, exhausted: Fault): (o: Outcome)
    ensures o.used <= |rs|
    ensures o.open ==> o.exit == OtherError
    ensures o.exit == Normal ==> !o.open
    decreases |rs|
  {
    var a := ReceiveAll(codec.utf8, rs, exhausted);
    match a.result
    case Failure(f) => Outcome(f, [], a.used, false)
    case Success(rr) =>
      if rr.isClosed then Outcome(Normal, [], a.used, false)
      else if Escapes(codec.parse, rr) then Outcome(OtherError, [], a.used, true)
      else
        var rest := Session(codec, rs[a.used..], exhausted);
        Outcome(rest.exit, Delivered(codec.parse, rr) + rest.queued, a.used + rest.used, rest.open)
  }

  /** `o` preceded by a stretch of the loop that read `n` receipts and enqueued `q`. */
  function Prepend(q: seq<Message>, n: nat, o: Outcome): Outcome
  {
    o.(queued := q + o.queued, used := o.used + n)
  }

  /**
   * The two sequence identities the receive loop's invariant needs, stated
   * once so that its proof does not rediscover them among the unfolded loop.
   */
  lemma AppendAssociates(a: seq<Message>, b: seq<Message>, c: seq<Message>)
    ensures (a + b) + c == a + (b + c)
  {
  }

  lemma DropTwice(rs: seq<Receipt>, i: nat, j: nat)
    requires i + j <= |rs|
    ensures rs[i..][j..] == rs[i + j..]
  {
  }

  lemma PrependTwice(q1: seq<Message>, n1: nat, q2: seq<Message>, n2: nat, o: Outcome)
    ensures Prepend(q1, n1, Prepend(q2, n2, o)) == Prepend(q1 + q2, n1 + n2, o)
  {
    assert q1 + (q2 + o.queued) == (q1 + q2) + o.queued;
  }

  /** One turn of the loop: an open result that decodes hands over to the rest of the script. */
  lemma SessionStep(codec: Codec, rs: seq<Receipt>, exhausted: Fault)
    requires var a := ReceiveAll(codec.utf8, rs, exhausted);
      a.result.Success? && !a.result.value.isClosed && !Escapes(codec.parse, a.result.value)
    ensures var a := ReceiveAll(codec.utf8, rs, exhausted);
      a.used <= |rs| &&
      Session(codec, rs, exhausted)
        == Prepend(Delivered(codec.parse, a.result.value), a.used, Session(codec, rs[a.used..], exhausted))
  {
  }

  /** A close result ends the loop normally, with nothing more enqueued. */
  lemma SessionCloses(codec: Codec, rs: seq<Receipt>, exhausted: Fault)
    requires var a := ReceiveAll(codec.utf8, rs, exhausted); a.result.Success? && a.result.value.isClosed
    ensures Session(codec, rs, exhausted) == Outcome(Normal, [], ReceiveAll(codec.utf8, rs, exhausted).used, false)
  {
  }

  /** A text whose lookup throws ends the loop with the socket still open. */
  lemma SessionEscapes(codec: Codec, rs: seq<Receipt>, exhausted: Fault)
    requires var a := ReceiveAll(codec.utf8, rs, exhausted);
      a.result.Success? && !a.result.value.isClosed && Escapes(codec.parse, a.result.value)
    ensures Session(codec, rs, exhausted) == Outcome(OtherError, [], ReceiveAll(codec.utf8, rs, exhausted).used, true)
  {
  }

  /**
   * The receive loop's invariant carried over one turn that neither closed
   * nor threw: the outcome of the whole script is what has been enqueued so
   * far, then what this turn delivers, then the outcome of the rest.
   */
  lemma LoopAdvance(codec: Codec, script: seq<Receipt>, added: seq<Message>, consumed: nat,
                    pending: seq<Receipt>, exhausted: Fault)
    requires Session(codec, script, exhausted) == Prepend(added, consumed, Session(codec, pending, exhausted))
    requires var a := ReceiveAll(codec.utf8, pending, exhausted);
      a.result.Success? && !a.result.value.isClosed && !Escapes(codec.parse, a.result.value)
    ensures var a := ReceiveAll(codec.utf8, pending, exhausted);
      a.used <= |pending| &&
      Session(codec, script, exhausted)
        == Prepend(added + Delivered(codec.parse, a.result.value), consumed + a.used,
                   Session(codec, pending[a.used..], exhausted))
  {
    var a := ReceiveAll(codec.utf8, pending, exhausted);
    SessionStep(codec, pending, exhausted);
    PrependTwice(added, consumed, Delivered(codec.parse, a.result.value), a.used,
                 Session(codec, pending[a.used..], exhausted));
  }

  /**
   * A close frame at the head of the script ends the loop normally after one
   * receive, with nothing enqueued for the close itself.
   */
  lemma CloseEndsSession(codec: Codec, fr: Fragment, rs: seq<Receipt>, exhausted: Fault)
    requires fr.isClose
    ensures Session(codec, [Frame(fr)] + rs, exhausted) == Outcome(Normal, [], 1, false)
  {
    AssembleCharacterized(codec.utf8, [Frame(fr)] + rs, exhausted, MaxFragments, [], 0);
  }

  /**
   * A message split over more than 1000 fragments is abandoned: nothing is
   * enqueued for the first 1000, and the loop goes on with receipt 1001 as
   * if the session had started there.
   */
  lemma CappedMessageSkipped(codec: Codec, rs: seq<Receipt>, exhausted: Fault)
    requires MaxFragments <= |rs|
    requires forall j :: 0 <= j < MaxFragments ==> !Stops(rs[j])
    ensures var tail := Session(codec, rs[MaxFragments..], exhausted);
      Session(codec, rs, exhausted) == tail.(used := MaxFragments + tail.used)
  {
    AssembleCapsOut(codec.utf8, rs, exhausted, MaxFragments, []);
  }

  /**
   * A socket exception (WebSocketException, OperationCanceledException or
   * any other) raised by a receive within the cap ends the loop with that
   * exception after the receipts read so far, with nothing enqueued for the
   * message in progress.
   */
  lemma FaultEndsSession(codec: Codec, rs: seq<Receipt>, exhausted: Fault, k: nat)
    requires k < MaxFragments && k < |rs| && rs[k].Raise?
    requires forall j :: 0 <= j < k ==> !Stops(rs[j])
    ensures Session(codec, rs, exhausted) == Outcome(rs[k].fault, [], k + 1, false)
  {
    AssembleCharacterized(codec.utf8, rs, exhausted, MaxFragments, [], k);
  }

  /** The text of a message whose final fragment is receipt `k`, read from the start of `rs`. */
  function MessageText(utf8: seq<byte> -> string, rs: seq<Receipt>, k: nat): string
    requires k < |rs| && rs[k].Frame?
  {
    utf8(Written(Payloads(rs[..k]), rs[k].fragment))
  }

  /** A message that arrives in one final fragment has exactly its payload as text. */
  lemma SingleFragmentText(utf8: seq<byte> -> string, bytes: seq<byte>, rs: seq<Receipt>)
    ensures MessageText(utf8, [TextFrame(bytes)] + rs, 0) == utf8(bytes)
  {
    assert ([TextFrame(bytes)] + rs)[..0] == [];
    WrittenAppends([], TextFrame(bytes).fragment);
    assert [] + bytes == bytes;
  }

  /**
   * A complete message at the head of the loop, in any number of fragments
   * within the cap: if a lookup of ParseReceived throws, the loop ends there
   * with the socket open and nothing enqueued; otherwise what decodes (none
   * or one message) is enqueued ahead of everything received after it, and
   * the loop goes on. Receive order is queue order.
   */
  lemma {:induction false} MessageHandled(codec: Codec, rs: seq<Receipt>, exhausted: Fault, k: nat)
    requires k < MaxFragments && k < |rs|
    requires rs[k].Frame? && !rs[k].fragment.isClose && rs[k].fragment.endOfMessage
    requires forall j :: 0 <= j < k ==> !Stops(rs[j])
    ensures var text := MessageText(codec.utf8, rs, k);
      var tail := Session(codec, rs[k + 1..], exhausted);
      Session(codec, rs, exhausted)
        == if Decode(codec.parse, text).Thrown? then Outcome(OtherError, [], k + 1, true)
           else tail.(queued := Enqueued(codec.parse, text) + tail.queued, used := k + 1 + tail.used)
  {
    AssembleCharacterized(codec.utf8, rs, exhausted, MaxFragments, [], k);
    assert [] + Payloads(rs[..k]) == Payloads(rs[..k]);
  }

  /** Every message the loop enqueues carries a null status. */
  lemma {:induction false} QueuedHaveNoStatus(codec: Codec, rs: seq<Receipt>, exhausted: Fault)
    ensures forall m :: m in Session(codec, rs, exhausted).queued ==> m.status == None
    decreases |rs|
  {
    var a := ReceiveAll(codec.utf8, rs, exhausted);
    if a.result.Success? && !a.result.value.isClosed && !Escapes(codec.parse, a.result.value) {
      QueuedHaveNoStatus(codec, rs[a.used..], exhausted);
    }
  }
}
