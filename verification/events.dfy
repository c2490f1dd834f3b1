/**
  Request/response over one-way IPC channels. A request travels on its
  channel wrapped as `{data, response}`, where `response` names a fresh
  channel on which exactly one acknowledgement is awaited.
 */
module Events {
  import opened Hex
  import opened Json
  import opened Listeners

  /** The number of random bytes in a response channel name. */
  const RandomStringBytes: nat := 16

  /** The bytes `crypto.randomBytes(16)` produced for one channel name. */
  type Token = t: seq<Byte> | |t| == RandomStringBytes witness seq(16, _ => 0 as Byte)

  /** `generateRandomChannel(prefix)`: the prefix, a dash, and the token in hex. */
  function GenerateRandomChannel(prefix: string, token: Token): (c: string)
    ensures |c| == |prefix| + 1 + 2 * RandomStringBytes
    ensures c[..|prefix| + 1] == prefix + "-"
    ensures forall i | |prefix| + 1 <= i < |c| :: IsLowerHexDigit(c[i])
    ensures c != prefix + "-"
  {
    prefix + "-" + Encode(token)
  }

  /** Distinct tokens give distinct channel names for the same prefix. */
  lemma ChannelInjective(prefix: string, t1: Token, t2: Token)
    ensures GenerateRandomChannel(prefix, t1) == GenerateRandomChannel(prefix, t2) ==> t1 == t2
  {
    var c1 := GenerateRandomChannel(prefix, t1);
    var c2 := GenerateRandomChannel(prefix, t2);
    if c1 == c2 {
      assert c1[|prefix| + 1..] == Encode(t1);
      assert c2[|prefix| + 1..] == Encode(t2);
      EncodeInjective(t1, t2);
    }
  }

  /** The prefix of the response channel `send` generates for a request channel. */
  function ResponsePrefix(channel: string): string {
    channel + "-response"
  }

  /** The payload of a request: the caller's data and where to answer. */
  datatype Envelope = Envelope(data: Json, response: string)

  /** A message put on an IPC channel. */
  datatype Message = Message(channel: string, payload: Envelope)

  /** An acknowledgement: `data` sent on a response channel. */
  datatype Reply = Reply(channel: string, data: JsValue)

  /** The effect of `send`: the listener registered, the message sent, the channel awaited. */
  datatype Sent<H> = Sent(registry: Registry<H>, message: Message, responseChannel: string)

  /**
    `send(object, channel, data)`: registers `onResponse` once on a fresh
    response channel, then transmits one message on `channel`.
   */
  function Send<H>(r: Registry<H>, channel: string, data: Json, token: Token, onResponse: H): (s: Sent<H>)
    ensures s.responseChannel == GenerateRandomChannel(ResponsePrefix(channel), token)
    ensures s.message == Message(channel, Envelope(data, s.responseChannel))
    ensures ListenersOf(s.registry, s.responseChannel) ==
              ListenersOf(r, s.responseChannel) + [Listener(onResponse, true)]
    ensures forall e | e != s.responseChannel :: ListenersOf(s.registry, e) == ListenersOf(r, e)
  {
    var responseChannel := GenerateRandomChannel(ResponsePrefix(channel), token);
    Sent(Once(r, responseChannel, onResponse), Message(channel, Envelope(data, responseChannel)), responseChannel)
  }

  /** `awknowledge(event, payload, data)`: answers on the channel the request named. */
  function Awknowledge(payload: Envelope, data: JsValue): Reply {
    Reply(payload.response, data)
  }

  /** The response channel of a request on `channel` starts with `channel-response-`. */
  lemma ResponseChannelShape(channel: string, token: Token)
    ensures var c := GenerateRandomChannel(ResponsePrefix(channel), token);
      |c| > |channel| + 10 && c[..|channel| + 10] == channel + "-response-"
  {
    var c := GenerateRandomChannel(ResponsePrefix(channel), token);
    assert c[..|channel| + 10] == c[..|ResponsePrefix(channel)| + 1][..|channel| + 10];
  }

  /**
    A request answered by the receiver's acknowledgement: the reply lands on
    the awaited channel, runs `onResponse` exactly once with the
    acknowledged data, and a second reply on that channel runs nothing.
   */
  lemma AcknowledgementResolvesOnce<H>(r: Registry<H>, channel: string, data: Json, token: Token,
                                       onResponse: H, answer: JsValue)
    requires ListenersOf(r, GenerateRandomChannel(ResponsePrefix(channel), token)) == []
    ensures var s := Send(r, channel, data, token, onResponse);
      var reply := Awknowledge(s.message.payload, answer);
      && reply.channel == s.responseChannel
      && reply.data == answer
      && Emit(s.registry, reply.channel).fired == [onResponse]
      && Emit(Emit(s.registry, reply.channel).registry, reply.channel).fired == []
  {
    var s := Send(r, channel, data, token, onResponse);
    assert s.registry == Once(r, s.responseChannel, onResponse);
    OnceFiresOnce(r, s.responseChannel, onResponse);
  }
}
