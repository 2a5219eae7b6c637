/**
 * Decoding one received text into a BsEventMessage (ParseSilently and
 * ParseReceived). The JSON library is an oracle: `parse` gives None where
 * JObject.Parse throws (ParseSilently catches that), and otherwise what the
 * two field lookups of the parsed object give, each of which may throw.
 */
module Envelopes {
  import opened Wrappers
  import opened Frames

  newtype int64 = x: int | -0x8000_0000_0000_0000 <= x < 0x8000_0000_0000_0000

  /** The outcome of one `Value<T>` lookup: a value, or an exception. */
  datatype Conversion<+T> = Converted(value: T) | Throws

  /**
   * What the parsed JObject gives for Value<string>("event") (None is null)
   * and for Value<long>("time").
   */
  datatype Envelope = Envelope(event: Conversion<Option<string>>, time: Conversion<int64>)

  /** BsEventMessage; its `status` is the optional JObject, here the envelope. */
  datatype Message = Message(event: string, time: int64, status: Option<Envelope>)

  /** The two library services the broker uses: UTF-8 decoding and ParseSilently. */
  datatype Codec = Codec(utf8: seq<byte> -> string, parse: string -> Option<Envelope>)

  /**
   * What ParseReceived does with one text: return without enqueuing, enqueue
   * a message, or let a lookup's exception escape.
   */
  datatype Parsed = Skipped | Decoded(message: Message) | Thrown

  /**
   * ParseReceived's decision. Unparsable JSON is skipped; a lookup that
   * throws escapes (both lookups run before the null check, so a bad `time`
   * escapes even without an `event`); a null `event` is skipped; anything
   * else becomes a message with a null status.
   */
  function Decode(parse: string -> Option<Envelope>, text: string): (p: Parsed)
    ensures p.Thrown? <==> parse(text).Some? && (parse(text).value.event.Throws? || parse(text).value.time.Throws?)
    ensures p.Decoded? <==>
              && parse(text).Some?
              && parse(text).value.event.Converted? && parse(text).value.event.value.Some?
              && parse(text).value.time.Converted?
    ensures p.Decoded? ==>
              && p.message.event == parse(text).value.event.value.value
              && p.message.time == parse(text).value.time.value
              && p.message.status == None
  {
    match parse(text)
    case None => Skipped
    case Some(j) =>
      match j.event
      case Throws => Thrown
      case Converted(e) =>
        match j.time
        case Throws => Thrown
        case Converted(t) =>
          match e
          case None => Skipped
          case Some(name) => Decoded(Message(name, t, None))
  }

  /** The messages ParseReceived appends to MsgQueue for `text`: none or one. */
  function Enqueued(parse: string -> Option<Envelope>, text: string): (q: seq<Message>)
    ensures |q| <= 1
    ensures |q| == 1 <==> Decode(parse, text).Decoded?
    ensures q != [] ==> q[0] == Decode(parse, text).message
  {
    match Decode(parse, text)
    case Decoded(m) => [m]
    case _ => []
  }
}
