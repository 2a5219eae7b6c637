/**
 * The pure parts of BsEventNode: the `exits` table from event names to flow
 * outputs, one dispatch tick over the message queue, and the choice of URI.
 */
module Routing {
  import opened Wrappers
  import opened Envelopes

  /** The `exits` dictionary: event name to the name of its flow output. */
  const Exits: map<string, string> := map[
    "hello" := "Hello",
    "songStart" := "SongStart",
    "noteCut" := "NoteCut",
    "obstacleEnter" := "ObstacleEnter",
    "obstacleExit" := "ObstacleExit",
    "noteMissed" := "NoteMissed",
    "bombCut" := "BombCut",
    "bombMissed" := "BombMissed",
    "finished" := "Finished",
    "failed" := "Failed",
    "softFailed" := "SoftFailed",
    "scoreChanged" := "ScoreChanged",
    "energyChanged" := "EnergyChanged",
    "noteSpawned" := "NoteSpawned",
    "other" := "Other",
    "beatmapEvent" := "BeatmapEvent",
    "pause" := "Pause",
    "resume" := "Resume",
    "menu" := "Menu"
  ]

  /** The flow InvokeFlow fires for an event name: none unless it is a key. */
  function Route(exits: map<string, string>, name: string): (out: seq<string>)
    ensures |out| <= 1
    ensures out != [] <==> name in exits
    ensures out != [] ==> out[0] == exits[name]
  {
    if name in exits then [exits[name]] else []
  }

  /** The queue after one tick and the flows it fired. */
  datatype Tick = Tick(rest: seq<Message>, fired: seq<string>)

  /** The dispatch half of OnUpdate on a non-null broker. */
  function Dispatch(exits: map<string, string>, queue: seq<Message>): (t: Tick)
    ensures queue == [] ==> t == Tick([], [])
    ensures queue != [] ==> t.rest == queue[1..] && t.fired == Route(exits, queue[0].event)
  {
    if queue == [] then Tick([], [])
    else Tick(queue[1..], Route(exits, queue[0].event))
  }

  /** The flows fired for `ms`, one route per message, in order. */
  function Flows(exits: map<string, string>, ms: seq<Message>): seq<string>
  {
    if ms == [] then [] else Flows(exits, ms[..|ms| - 1]) + Route(exits, ms[|ms| - 1].event)
  }

  /** `k` consecutive ticks with nothing new arriving. */
  function Drain(exits: map<string, string>, queue: seq<Message>, k: nat): Tick
  {
    if k == 0 then Tick(queue, [])
    else
      var before := Drain(exits, queue, k - 1);
      var t := Dispatch(exits, before.rest);
      Tick(t.rest, before.fired + t.fired)
  }

  /**
   * Queue order is firing order: after `k` ticks the first `k` messages
   * have been taken off the head, one per tick, and the flows fired are
   * their routes in the order they were enqueued; unknown names fire nothing.
   */
  lemma {:induction false} DrainFiresInOrder(exits: map<string, string>, queue: seq<Message>, k: nat)
    requires k <= |queue|
    ensures Drain(exits, queue, k) == Tick(queue[k..], Flows(exits, queue[..k]))
  {
    if k > 0 {
      DrainFiresInOrder(exits, queue, k - 1);
      assert queue[k - 1..][1..] == queue[k..];
      assert queue[..k][..k - 1] == queue[..k - 1];
    }
  }

  /**
   * Lookups the source relies on: "noteCut" fires NoteCut, "pause" and
   * "resume" fire Pause and Resume, the literal
   * "other" fires Other, and a name outside the table (here "Other", the
   * output's own name) fires nothing: there is no fallback route.
   */
  lemma ExitsLookups()
    ensures Route(Exits, "noteCut") == ["NoteCut"]
    ensures Route(Exits, "pause") == ["Pause"] && Route(Exits, "resume") == ["Resume"]
    ensures Route(Exits, "other") == ["Other"]
    ensures Route(Exits, "Other") == []
  {
  }

  /** The default URI of the event source. */
  const DefaultUri: string := "ws://127.0.0.1:6557/socket"

  /** Char.IsWhiteSpace: the Unicode space separators and the control whitespace. */
  predicate IsWhiteSpace(c: char)
  {
    c == ' ' || ('\t' <= c <= '\r') || c == '\U{0085}' || c == '\U{00A0}' || c == '\U{1680}'
    || ('\U{2000}' <= c <= '\U{200A}') || c == '\U{2028}' || c == '\U{2029}'
    || c == '\U{202F}' || c == '\U{205F}' || c == '\U{3000}'
  }

  /** string.IsNullOrWhiteSpace. */
  predicate IsNullOrWhiteSpace(s: Option<string>)
  {
    s.None? || forall i :: 0 <= i < |s.value| ==> IsWhiteSpace(s.value[i])
  }

  /** The URI Start gives the broker: `ws_address` unless it is null or blank. */
  function ResolveUri(address: Option<string>): (uri: string)
    ensures IsNullOrWhiteSpace(address) ==> uri == DefaultUri
    ensures !IsNullOrWhiteSpace(address) ==> Some(uri) == address
    ensures !IsNullOrWhiteSpace(Some(uri))
  {
    assert !IsWhiteSpace(DefaultUri[0]);
    if IsNullOrWhiteSpace(address) then DefaultUri else address.value
  }
}
