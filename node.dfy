/**
 * BsEventNode: holds at most one broker and its cancellation source, starts
 * and stops them, and on each host tick consults the AutoStarter and fires
 * the flow for at most one queued message.
 */
module Node {
  import opened Wrappers
  import opened Envelopes
  import opened Broker
  import opened Watchdog
  import opened Routing

  /** CancellationTokenSource: the flags Cancel and Dispose set. */
  class CancellationTokenSource {
    var cancelled: bool
    var disposed: bool

    constructor ()
      ensures !cancelled && !disposed
    {
      cancelled := false;
      disposed := false;
    }

    method Cancel()
      modifies this`cancelled
      ensures cancelled
    {
      cancelled := true;
    }

    method Dispose()
      modifies this`disposed
      ensures disposed
    {
      disposed := true;
    }
  }

  class BsEventNode {
    var broker: BsEventBroker?
    var cts: CancellationTokenSource?
    /** The `autoStart` data input. */
    var autoStart: bool
    /** The `ws_address` data input; None is null. */
    var wsAddress: Option<string>
    const exits: map<string, string>
    const autoStarter: AutoStarter
    const codec: Codec
    /** Whether `new Uri(s)` accepts `s`; the broker's constructor throws otherwise. */
    const uriParses: string -> bool
    /** The flow outputs InvokeFlow has fired, oldest first. */
    var fired: seq<string>

    /** The node never holds a disposed broker or cancellation source. */
    ghost predicate Valid()
      reads this, broker, cts
    {
      (broker != null ==> !broker.disposed) && (cts != null ==> !cts.disposed)
    }

    constructor (now: int, codec: Codec, uriParses: string -> bool)
      ensures broker == null && cts == null && !autoStart && wsAddress == None
      ensures exits == Exits && fired == [] && this.codec == codec && this.uriParses == uriParses
      ensures fresh(autoStarter) && autoStarter.State() == Watch(now, now)
      ensures Valid()
    {
      broker := null;
      cts := null;
      autoStart := false;
      wsAddress := None;
      exits := Exits;
      autoStarter := new AutoStarter(now);
      this.codec := codec;
      this.uriParses := uriParses;
      fired := [];
    }

    /** The broker held, as a frame. */
    function HeldBroker(): set<BsEventBroker>
      reads this
    {
      if broker == null then {} else {broker}
    }

    /** The cancellation source held, as a frame. */
    function HeldSource(): set<CancellationTokenSource>
      reads this
    {
      if cts == null then {} else {cts}
    }

    /** IsActive: a broker is held and its loop is running. */
    predicate IsActive()
      reads this, broker
    {
      broker != null && broker.isRunning
    }

    /** ForceReset: dispose and drop the cancellation source and the broker. */
    method ForceReset()
      modifies this`broker, this`cts, HeldBroker()`disposed, HeldSource()`disposed
      ensures broker == null && cts == null
      ensures old(cts) != null ==> old(cts).disposed
      ensures old(broker) != null ==> old(broker).disposed
      ensures Valid()
    {
      if cts != null {
        cts.Dispose();
      }
      cts := null;
      if broker != null {
        broker.Dispose();
      }
      broker := null;
    }

    /**
     * Start: force-reset a stale pair, then install a fresh broker on the
     * resolved URI and a fresh cancellation source, and launch the broker's
     * loop, which raises its running flag before its first await. The rest
     * of the loop, and the ForceReset that follows it, run in the background
     * (BsEventBroker.Complete, then ForceReset). When the URI does not
     * parse, the broker's constructor throws: `thrown` is set and neither
     * field is assigned.
     */
    method Start(link: Link) returns (thrown: bool)
      modifies this`broker, this`cts, HeldBroker()`disposed, HeldSource()`disposed
      ensures thrown <==> !uriParses(ResolveUri(wsAddress))
      ensures old(cts) != null ==> old(cts).disposed
      ensures old(broker) != null ==> old(broker).disposed
      ensures thrown ==> broker == null && cts == null
      ensures !thrown ==>
                && broker != null && cts != null && fresh(broker) && fresh(cts)
                && broker.uri == ResolveUri(wsAddress) && broker.codec == codec
                && broker.connectFault == link.connectFault && broker.inbox == link.receipts
                && broker.exhausted == link.exhausted
                && broker.state == Idle && broker.msgQueue == [] && !broker.disposed
                && broker.isRunning && broker.toasts == [LoopStarted]
                && !cts.cancelled && !cts.disposed
      ensures Valid()
    {
      if broker != null || cts != null {
        ForceReset();
      }
      var uri := ResolveUri(wsAddress);
      if !uriParses(uri) {
        return true;
      }
      broker := new BsEventBroker(uri, codec, link);
      cts := new CancellationTokenSource();
      broker.Begin();
      thrown := false;
    }

    /** Stop: request cancellation; nothing else changes. */
    method Stop()
      requires Valid()
      modifies HeldSource()`cancelled
      ensures cts != null ==> cts.cancelled
      ensures Valid()
    {
      if cts != null {
        cts.Cancel();
      }
    }

    /**
     * OnUpdate: with `autoStart` set, consult the AutoStarter (which may
     * call Start); then, if a broker is held and its queue is not empty,
     * take the head message and fire the flow its event name maps to.
     * `link` is what the network does for a connection started this tick;
     * `thrown` is an exception from Start leaving the method, which then
     * dispatches nothing.
     */
    method OnUpdate(now: int, link: Link) returns (thrown: bool)
      requires Valid()
      modifies this`broker, this`cts, this`fired, autoStarter, HeldBroker()`disposed, HeldSource()`disposed, HeldBroker()`msgQueue
      ensures Valid()
      ensures var alive := old(broker) != null && old(broker.isRunning);
        var fails := !uriParses(ResolveUri(wsAddress));
        var d := if autoStart then Step(old(autoStarter.State()), Sample(now, alive, fails))
                 else Decision(old(autoStarter.State()), false);
        && autoStarter.State() == d.next
        && (thrown <==> d.start && fails)
        && (d.start ==>
              && fired == old(fired)
              && (old(cts) != null ==> old(cts).disposed)
              && (old(broker) != null ==> old(broker).disposed && old(broker).msgQueue == old(broker.msgQueue)))
        && (thrown ==> broker == null && cts == null)
        && (d.start && !fails ==>
              && broker != null && cts != null && fresh(broker) && fresh(cts)
              && broker.uri == ResolveUri(wsAddress) && broker.codec == codec
              && broker.connectFault == link.connectFault && broker.inbox == link.receipts
              && broker.exhausted == link.exhausted
              && broker.state == Idle && broker.msgQueue == [] && !broker.disposed
              && broker.isRunning && broker.toasts == [LoopStarted]
              && !cts.cancelled && !cts.disposed)
        && (!d.start ==> broker == old(broker) && cts == old(cts))
        && (!d.start && broker == null ==> fired == old(fired))
        && (!d.start && broker != null ==>
              var t := Dispatch(exits, old(broker.msgQueue));
              broker.msgQueue == t.rest && fired == old(fired) + t.fired)
    {
      if autoStart {
        var alive := IsActive();
        var fails := !uriParses(ResolveUri(wsAddress));
        var start := autoStarter.OnUpdate(now, alive, fails);
        if start {
          thrown := Start(link);
          if thrown {
            return;
          }
        }
      }
      thrown := false;
      if broker == null {
        return;
      }
      if broker.msgQueue != [] {
        var x := broker.msgQueue[0];
        broker.msgQueue := broker.msgQueue[1..];
        if x.event in exits {
          fired := fired + [exits[x.event]];
        }
      }
    }
  }
}
