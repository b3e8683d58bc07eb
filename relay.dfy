/** The playback relay of `websocketSendReceive`: one request to the synthesis service, then a
    loop that copies each binary audio message into the call until the stream says it is done,
    fails, or the relay is superseded. */
module Relay {
  import opened Wrappers
  import opened Pcm
  import opened CallProtocol

  /** The JSON object the relay sends first: `message`, `language`, `speed`, `await_time`. */
  datatype RelayRequest = RelayRequest(message: string, language: string, speed: real, awaitTime: real)

  /** The request built for a model reply: Russian, normal speed, 15 ms between chunks. */
  function RequestFor(reply: string): RelayRequest {
    RelayRequest(reply, "ru", 1.0, 0.015)
  }

  /** The `type` entry of a text message that parsed as a JSON object. */
  datatype TypeField = NoType | NonStringType | StringType(value: string)

  /** A text message body: not a JSON object, or an object with its `type` entry. */
  datatype TextBody = Unparsable | Parsed(typeField: TypeField)

  /** What one turn of the loop observes: cancellation of the relay before the next read, a read
      error, or a message of some type. A binary message carries whether writing it to the call
      succeeded. */
  /** A websocket message type code other than text (1) and binary (2). */
  type OtherMessageType = t: int | t != 1 && t != 2 witness 0

  datatype WsEvent =
    | Cancelled
    | ReadFailure
    | TextMessage(body: TextBody)
    | BinaryMessage(data: seq<Byte>, writeOk: bool)
    | OtherMessage(messageType: OtherMessageType)

  datatype Termination = DialFailed | SendFailed | EndOfAudio | StreamReadFailed | WriteFailed | Superseded | Exhausted

  /** The frames written to the call, in order, and why the relay stopped. */
  datatype RelayResult = RelayResult(written: seq<Frame>, reason: Termination)

  predicate IsEndOfAudio(body: TextBody) {
    body == Parsed(StringType("end_of_audio"))
  }

  /** The events that end the loop. */
  predicate Stops(e: WsEvent) {
    match e
    case Cancelled => true
    case ReadFailure => true
    case TextMessage(body) => IsEndOfAudio(body)
    case BinaryMessage(_, ok) => !ok
    case OtherMessage(_) => false
  }

  function StopReason(e: WsEvent): Termination
    requires Stops(e)
  {
    match e
    case Cancelled => Superseded
    case ReadFailure => StreamReadFailed
    case TextMessage(_) => EndOfAudio
    case BinaryMessage(_, _) => WriteFailed
  }

  /** A binary message is written to the call as one audio frame (`audiosocket.SlinMessage`). */
  function AudioFrame(data: seq<Byte>): Frame {
    Frame(KindSlin, data)
  }

  /** The loop, one event at a time. */
  function RelayFold(events: seq<WsEvent>): RelayResult
    decreases |events|
  {
    if events == [] then RelayResult([], Exhausted)
    else
      var e := events[0];
      if Stops(e) then RelayResult([], StopReason(e))
      else
        var rest := RelayFold(events[1..]);
        match e
        case BinaryMessage(data, _) => RelayResult([AudioFrame(data)] + rest.written, rest.reason)
        case _ => rest
  }

  /** Index of the first event that ends the loop, or the number of events if none does. */
  function FirstStop(events: seq<WsEvent>): (k: nat)
    ensures k <= |events|
    ensures forall i :: 0 <= i < k ==> !Stops(events[i])
    ensures k < |events| ==> Stops(events[k])
    decreases |events|
  {
    if events == [] then 0
    else if Stops(events[0]) then 0
    else 1 + FirstStop(events[1..])
  }

  /** The audio frames for the binary messages among the given events, in order. */
  function AudioFrames(events: seq<WsEvent>): (r: seq<Frame>)
    ensures |r| <= |events|
    decreases |events|
  {
    if events == [] then []
    else (if events[0].BinaryMessage? then [AudioFrame(events[0].data)] else []) + AudioFrames(events[1..])
  }

  /** The frames written are exactly the binary messages before the first stopping event, in
      arrival order, and the relay stops for that event's reason (or because the events ran out). */
  lemma {:induction false} RelayWritesBinariesBeforeStop(events: seq<WsEvent>)
    ensures RelayFold(events).written == AudioFrames(events[..FirstStop(events)])
    ensures RelayFold(events).reason ==
      if FirstStop(events) < |events| then StopReason(events[FirstStop(events)]) else Exhausted
    decreases |events|
  {
    if events != [] && !Stops(events[0]) {
      RelayWritesBinariesBeforeStop(events[1..]);
      assert events[..FirstStop(events)][1..] == events[1..][..FirstStop(events[1..])];
    }
  }

  /** A text message that is not the end-of-audio signal, or a message of another type, writes
      nothing and does not stop the loop: taking it out changes nothing. */
  lemma {:induction false} IgnoredEventIsInvisible(before: seq<WsEvent>, e: WsEvent, after: seq<WsEvent>)
    requires e.OtherMessage? || (e.TextMessage? && !IsEndOfAudio(e.body))
    ensures RelayFold(before + [e] + after) == RelayFold(before + after)
    decreases |before|
  {
    if before == [] {
      assert before + [e] + after == [e] + after && before + after == after;
      assert ([e] + after)[0] == e && ([e] + after)[1..] == after;
    } else {
      var e0 := before[0];
      assert (before + [e] + after)[0] == e0 && (before + after)[0] == e0;
      assert (before + [e] + after)[1..] == before[1..] + [e] + after;
      assert (before + after)[1..] == before[1..] + after;
      IgnoredEventIsInvisible(before[1..], e, after);
    }
  }

  /** Events that arrive after the relay stopped have no effect. */
  lemma {:induction false} NothingAfterStop(before: seq<WsEvent>, e: WsEvent, after: seq<WsEvent>)
    requires Stops(e)
    requires forall i :: 0 <= i < |before| ==> !Stops(before[i])
    ensures RelayFold(before + [e] + after) == RelayResult(AudioFrames(before), StopReason(e))
    decreases |before|
  {
    if before == [] {
      assert ([] + [e] + after)[0] == e;
    } else {
      assert (before + [e] + after)[0] == before[0];
      assert (before + [e] + after)[1..] == before[1..] + [e] + after;
      NothingAfterStop(before[1..], e, after);
    }
  }

  /** `websocketSendReceive` once its goroutine runs: dial the synthesis service, send the request,
      then copy binary messages to the call until a stopping event. Returns the request sent (if
      any), the frames written to the call, and why the relay ended. */
  method WebsocketSendReceive(request: RelayRequest, dialOk: bool, sendOk: bool, events: seq<WsEvent>)
    returns (sent: Option<RelayRequest>, result: RelayResult)
    ensures !dialOk ==> sent == None && result == RelayResult([], DialFailed)
    ensures dialOk ==> sent == Some(request)
    ensures dialOk && !sendOk ==> result == RelayResult([], SendFailed)
    ensures dialOk && sendOk ==> result == RelayFold(events)
  {
    if !dialOk {
      return None, RelayResult([], DialFailed);
    }
    sent := Some(request);
    if !sendOk {
      return sent, RelayResult([], SendFailed);
    }
    var written: seq<Frame> := [];
    var i := 0;
    while i < |events|
      invariant 0 <= i <= |events|
      invariant RelayFold(events) == RelayResult(written + RelayFold(events[i..]).written, RelayFold(events[i..]).reason)
    {
      var e := events[i];
      assert events[i..][0] == e && events[i..][1..] == events[i + 1..];
      match e {
        case Cancelled =>
          return sent, RelayResult(written, Superseded);
        case ReadFailure =>
          return sent, RelayResult(written, StreamReadFailed);
        case TextMessage(body) =>
          if body.Parsed? && body.typeField.StringType? && body.typeField.value == "end_of_audio" {
            return sent, RelayResult(written, EndOfAudio);
          }
        case BinaryMessage(data, writeOk) =>
          if !writeOk {
            return sent, RelayResult(written, WriteFailed);
          }
          written := written + [AudioFrame(data)];
        case OtherMessage(_) =>
      }
      i := i + 1;
    }
    result := RelayResult(written, Exhausted);
  }
}
