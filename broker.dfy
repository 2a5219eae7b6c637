/**
 * BsEventBroker: owns one client socket, assembles and decodes what it
 * receives, and appends the messages to MsgQueue. The socket's behaviour is
 * the `Link` it was created with; async/await is sequential here.
 */
module Broker {
  import opened Wrappers
  import opened Frames
  import opened Envelopes
  import opened Sessions

  /**
   * What the network will do for one socket: the fault ConnectAsync throws
   * (if any), the receipts ReceiveAsync delivers in order, and the fault a
   * receive throws after the last of them.
   */
  datatype Link = Link(connectFault: Option<Fault>, receipts: seq<Receipt>, exhausted: Fault)

  /** The states of ClientWebSocket that the broker can observe. */
  datatype SocketState = Idle | Open | Closed | Aborted

  /** The toasts the receive loop shows. */
  datatype Toast = LoopStarted | WebSocketErrorToast | UnexpectedErrorToast | LoopStopped

  /** The error toasts the catch clauses of RunAsync show for an exit reason. */
  function ErrorToasts(exit: ExitReason): (ts: seq<Toast>)
    ensures |ts| <= 1
    ensures ts != [] <==> exit == WebSocketError || exit == OtherError
    ensures LoopStarted !in ts && LoopStopped !in ts
  {
    match exit
    case WebSocketError => [WebSocketErrorToast]
    case OtherError => [UnexpectedErrorToast]
    case _ => []
  }

  /**
   * The socket's state when the receive loop ends: closed after a close
   * frame, still open when ParseReceived threw, aborted after a socket fault.
   */
  function SocketAfter(o: Outcome): SocketState
  {
    if o.open then Open else if o.exit == Normal then Closed else Aborted
  }

  class BsEventBroker {
    const uri: string
    const codec: Codec
    const connectFault: Option<Fault>
    const exhausted: Fault

    var state: SocketState
    /** The receipts the socket has yet to deliver. */
    var inbox: seq<Receipt>
    var msgQueue: seq<Message>
    var isRunning: bool
    var disposed: bool
    ghost var toasts: seq<Toast>

    constructor (uri: string, codec: Codec, link: Link)
      ensures this.uri == uri && this.codec == codec
      ensures connectFault == link.connectFault && exhausted == link.exhausted && inbox == link.receipts
      ensures state == Idle && msgQueue == [] && !isRunning && !disposed && toasts == []
    {
      this.uri := uri;
      this.codec := codec;
      connectFault := link.connectFault;
      exhausted := link.exhausted;
      inbox := link.receipts;
      state := Idle;
      msgQueue := [];
      isRunning := false;
      disposed := false;
      toasts := [];
    }

    /** ReceiveAllTextAsync: one message, a close, or (false, null) after 1000 receives. */
    method ReceiveAllText() returns (r: Result<ReceiveResult, Fault>)
      requires state == Open
      modifies this`inbox, this`state
      ensures var a := ReceiveAll(codec.utf8, old(inbox), exhausted);
        r == a.result && inbox == old(inbox)[a.used..]
      ensures state == (if r.Failure? then Aborted else if r.value.isClosed then Closed else Open)
    {
      ghost var script := inbox;
      var buffer: seq<byte> := [];
      for i := 0 to MaxFragments
        invariant state == Open
        invariant i <= |script| && inbox == script[i..]
        invariant ReceiveAll(codec.utf8, script, exhausted)
                  == Shift(Assemble(codec.utf8, inbox, exhausted, MaxFragments - i, buffer), i)
      {
        if inbox == [] {
          state := Aborted;
          return Failure(exhausted);
        }
        ghost var pending, held := inbox, buffer;
        AssembleStep(codec.utf8, pending, exhausted, MaxFragments - i, held);
        var receipt := inbox[0];
        inbox := inbox[1..];
        match receipt
        case Raise(f) =>
          state := Aborted;
          return Failure(f);
        case Frame(fr) =>
          if fr.isClose {
            state := Closed;
            return Success(ClosedResult);
          }
          if fr.Count() > 0 {
            buffer := buffer + fr.payload;
          }
          if fr.endOfMessage {
            return Success(ReceiveResult(false, Some(codec.utf8(buffer))));
          }
      }
      r := Success(NoMessage);
    }

    /**
     * ParseReceived: append the decoded message, if any, at the tail of
     * MsgQueue; `thrown` is an exception from a lookup leaving the method.
     */
    method ParseReceived(text: string) returns (thrown: bool)
      modifies this`msgQueue
      ensures thrown <==> Decode(codec.parse, text).Thrown?
      ensures msgQueue == old(msgQueue) + Enqueued(codec.parse, text)
    {
      var j := codec.parse(text);
      if j == None {
        return false;
      }
      if j.value.event.Throws? {
        return true;
      }
      var e := j.value.event.value;
      if j.value.time.Throws? {
        return true;
      }
      var t := j.value.time.value;
      if e == None {
        return false;
      }
      msgQueue := msgQueue + [Message(e.value, t, None)];
      thrown := false;
    }

    /**
     * The `while` loop of RunAsyncImpl on an open socket: receive, stop at a
     * close or an exception, enqueue what decodes.
     */
    method ReceiveLoop() returns (exit: ExitReason)
      requires state == Open
      modifies this`inbox, this`state, this`msgQueue
      ensures var o := Session(codec, old(inbox), exhausted);
        && exit == o.exit && msgQueue == old(msgQueue) + o.queued && o.used <= |old(inbox)|
        && inbox == old(inbox)[o.used..]
        && state == SocketAfter(o)
    {
      ghost var script := inbox;
      ghost var consumed: nat := 0;
      ghost var added: seq<Message> := [];
      while state == Open
        invariant state == Open
        invariant consumed <= |script| && inbox == script[consumed..]
        invariant msgQueue == old(msgQueue) + added
        invariant Session(codec, script, exhausted) == Prepend(added, consumed, Session(codec, inbox, exhausted))
        decreases |inbox|
      {
        ghost var pending := inbox;
        var result := ReceiveAllText();
        ghost var a := ReceiveAll(codec.utf8, pending, exhausted);
        DropTwice(script, consumed, a.used);
        if result.Failure? {
          return result.error;
        }
        if result.value.isClosed {
          SessionCloses(codec, pending, exhausted);
          AppendAssociates(old(msgQueue), added, []);
          return Normal;
        }
        ghost var got := Delivered(codec.parse, result.value);
        ghost var before := msgQueue;
        if result.value.text.Some? {
          var thrown := ParseReceived(result.value.text.value);
          if thrown {
            SessionEscapes(codec, pending, exhausted);
            AppendAssociates(old(msgQueue), added, []);
            return OtherError;
          }
        } else {
          assert before + got == before + [];
        }
        AppendAssociates(old(msgQueue), added, got);
        LoopAdvance(codec, script, added, consumed, pending, exhausted);
        added := added + got;
        consumed := consumed + a.used;
      }
    }

    /**
     * RunAsyncImpl: nothing if the socket is already open; otherwise connect
     * and run the receive loop. Exceptions come back as the exit reason.
     * The running flag is outside its frame, so it keeps its value throughout.
     */
    method RunImpl() returns (exit: ExitReason)
      modifies this`inbox, this`state, this`msgQueue
      ensures old(state) == Open ==> exit == Normal && unchanged(this)
      ensures old(state) != Open && old(state) != Idle ==>
                exit == OtherError && state == Aborted && inbox == old(inbox) && msgQueue == old(msgQueue)
      ensures old(state) == Idle && connectFault.Some? ==>
                exit == connectFault.value && state == Aborted && inbox == old(inbox) && msgQueue == old(msgQueue)
      ensures old(state) == Idle && connectFault.None? ==>
                var o := Session(codec, old(inbox), exhausted);
                && exit == o.exit && msgQueue == old(msgQueue) + o.queued && inbox == old(inbox)[o.used..]
                && state == SocketAfter(o)
    {
      if state == Open {
        return Normal;
      }
      // ConnectAsync throws InvalidOperationException on a socket that was already started.
      if state != Idle {
        state := Aborted;
        return OtherError;
      }
      if connectFault.Some? {
        state := Aborted;
        return connectFault.value;
      }
      state := Open;
      exit := ReceiveLoop();
    }

    /**
     * The part of RunAsync that runs before its first await: the flag is
     * raised and the "started" toast shown.
     */
    method Begin()
      modifies this`isRunning, this`toasts
      ensures isRunning && toasts == old(toasts) + [LoopStarted]
    {
      isRunning := true;
      toasts := toasts + [LoopStarted];
    }

    /**
     * The rest of RunAsync: RunAsyncImpl, its catch clauses and the
     * `finally` block, which shows the one "stopped" toast and clears the
     * flag on every exit path.
     */
    method Complete() returns (exit: ExitReason)
      modifies this`inbox, this`state, this`msgQueue, this`isRunning, this`toasts
      ensures !isRunning
      ensures toasts == old(toasts) + ErrorToasts(exit) + [LoopStopped]
      ensures old(state) == Open ==>
                exit == Normal && state == Open && inbox == old(inbox) && msgQueue == old(msgQueue)
      ensures old(state) != Open && old(state) != Idle ==>
                exit == OtherError && state == Aborted && inbox == old(inbox) && msgQueue == old(msgQueue)
      ensures old(state) == Idle && connectFault.Some? ==>
                exit == connectFault.value && state == Aborted && inbox == old(inbox) && msgQueue == old(msgQueue)
      ensures old(state) == Idle && connectFault.None? ==>
                var o := Session(codec, old(inbox), exhausted);
                && exit == o.exit && msgQueue == old(msgQueue) + o.queued && inbox == old(inbox)[o.used..]
                && state == SocketAfter(o)
    {
      exit := RunImpl();
      if exit == WebSocketError {
        toasts := toasts + [WebSocketErrorToast];
      } else if exit == OtherError {
        toasts := toasts + [UnexpectedErrorToast];
      }
      // finally
      toasts := toasts + [LoopStopped];
      isRunning := false;
    }

    /** RunAsync: Begin, then Complete. */
    method Run() returns (exit: ExitReason)
      modifies this`inbox, this`state, this`msgQueue, this`isRunning, this`toasts
      ensures !isRunning
      ensures toasts == old(toasts) + [LoopStarted] + ErrorToasts(exit) + [LoopStopped]
      ensures old(state) == Open ==>
                exit == Normal && state == Open && inbox == old(inbox) && msgQueue == old(msgQueue)
      ensures old(state) != Open && old(state) != Idle ==>
                exit == OtherError && state == Aborted && inbox == old(inbox) && msgQueue == old(msgQueue)
      ensures old(state) == Idle && connectFault.Some? ==>
                exit == connectFault.value && state == Aborted && inbox == old(inbox) && msgQueue == old(msgQueue)
      ensures old(state) == Idle && connectFault.None? ==>
                var o := Session(codec, old(inbox), exhausted);
                && exit == o.exit && msgQueue == old(msgQueue) + o.queued && inbox == old(inbox)[o.used..]
                && state == SocketAfter(o)
    {
      Begin();
      exit := Complete();
    }

    /** Dispose: releases the socket. */
    method Dispose()
      modifies this`disposed
      ensures disposed
    {
      disposed := true;
    }
  }
}
