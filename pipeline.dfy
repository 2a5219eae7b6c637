/**
 * Receive order through to firing order: what the receive loop enqueues is
 * what the node's ticks fire, in the same order, one per tick.
 */
module Pipeline {
  import opened Wrappers
  import opened Frames
  import opened Envelopes
  import opened Sessions
  import opened Routing

  /**
   * `{"event":"pause","time":1}` then `{"event":"resume","time":2}`, each in
   * one final fragment, then a close: the loop enqueues the two messages in
   * that order and ends normally after three receives, and two ticks fire
   * Pause, then Resume.
   */
  lemma {:induction false} PauseThenResume(codec: Codec, pause: seq<byte>, resume: seq<byte>,
                                           close: Fragment, exhausted: Fault)
    requires codec.parse(codec.utf8(pause)) == Some(Envelope(Converted(Some("pause")), Converted(1)))
    requires codec.parse(codec.utf8(resume)) == Some(Envelope(Converted(Some("resume")), Converted(2)))
    requires close.isClose
    ensures var o := Session(codec, [TextFrame(pause), TextFrame(resume), Frame(close)], exhausted);
      && o == Outcome(Normal, [Message("pause", 1, None), Message("resume", 2, None)], 3, false)
      && Drain(Exits, o.queued, 2) == Tick([], ["Pause", "Resume"])
  {
    PauseThenResumeQueued(codec, pause, resume, close, exhausted);
    PauseThenResumeFires();
  }

  /** The receive half: two deliveries, then the close. */
  lemma {:induction false} PauseThenResumeQueued(codec: Codec, pause: seq<byte>, resume: seq<byte>,
                                                 close: Fragment, exhausted: Fault)
    requires codec.parse(codec.utf8(pause)) == Some(Envelope(Converted(Some("pause")), Converted(1)))
    requires codec.parse(codec.utf8(resume)) == Some(Envelope(Converted(Some("resume")), Converted(2)))
    requires close.isClose
    ensures Session(codec, [TextFrame(pause), TextFrame(resume), Frame(close)], exhausted)
            == Outcome(Normal, [Message("pause", 1, None), Message("resume", 2, None)], 3, false)
  {
    var script := [TextFrame(pause), TextFrame(resume), Frame(close)];
    CloseEndsSession(codec, close, [], exhausted);
    assert [Frame(close)] + [] == [Frame(close)];
    assert script[1..] == [TextFrame(resume)] + [Frame(close)];
    SingleFragmentText(codec.utf8, resume, [Frame(close)]);
    MessageHandled(codec, script[1..], exhausted, 0);
    assert script[1..][1..] == [Frame(close)];
    assert script == [TextFrame(pause)] + script[1..];
    SingleFragmentText(codec.utf8, pause, script[1..]);
    MessageHandled(codec, script, exhausted, 0);
  }

  /** The firing half: two ticks over the two queued messages. */
  lemma {:induction false} PauseThenResumeFires()
    ensures Drain(Exits, [Message("pause", 1, None), Message("resume", 2, None)], 2)
            == Tick([], ["Pause", "Resume"])
  {
    var queued := [Message("pause", 1, None), Message("resume", 2, None)];
    DrainFiresInOrder(Exits, queued, 2);
    assert queued[..2] == queued;
    assert queued[..1] == [queued[0]];
    assert Flows(Exits, queued[..1]) == Route(Exits, "pause") by {
      assert queued[..1][..0] == [];
    }
    ExitsLookups();
  }
}
