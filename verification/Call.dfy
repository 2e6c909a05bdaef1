/**
 Call (internal/linkcore/control.go): the client's loop over the daemon's responses, and the image that
 follows a screenshot's response, whatever the decoder has already read ahead. The stream is bytes, and they
 arrive in pieces that need not end where a response does.
 */
module Calls {
  import opened Common
  import opened Streams
  import opened Control

  /** A response as its receiver sees it. */
  datatype Delivered = Delivered(response: Response, image: seq<Byte>)

  // ----- The specification

  /** The part of a stream that lies within the reading budget. */
  function Visible(s: seq<Byte>, budget: nat): (r: seq<Byte>)
    ensures r <= s && |r| <= budget
    ensures |r| == |s| || |r| == budget
  {
    if |s| <= budget then s else s[..budget]
  }

  /** The next JSON value of the stream, if it lies within the budget; with what follows it and what is left. */
  function NextValue(codec: Codec, s: seq<Byte>, budget: nat): (r: Option<(Response, seq<Byte>, nat)>)
    ensures r.Some? ==> |r.value.1| < |s|
  {
    if s == [] || budget == 0 then None
    else if IsBlank(s[0]) then NextValue(codec, s[1..], budget - 1)
    else
      match codec.scan(Visible(s, budget))
      case Found(response, n) =>
        if 0 < n <= |Visible(s, budget)| then Some((response, s[n..], budget - n)) else None
      case _ => None
  }

  function BodyOf(rest: seq<Byte>, size: int): Result<seq<Byte>, string> {
    if size <= 0 || size > MAX_SCREENSHOT_BYTES then Failure("capture_invalid_image")
    else if rest == [] || rest[0] != NEWLINE || |rest| < 1 + size then Failure("control_response_failed")
    else Success(rest[1..1 + size])
  }

  /** The call's error, if any, and the responses it has delivered. */
  function CallOn(codec: Codec, command: string, s: seq<Byte>, budget: nat): (r: (Option<string>, seq<Delivered>))
    decreases |s|
  {
    match NextValue(codec, s, budget)
    case None => (Some("control_response_failed"), [])
    case Some((r, rest, left)) =>
      if r.imageBytes != 0 || (r.ok && r.event.ScreenshotEvent?) then
        if command != "screenshot" || !r.ok || !r.final || !r.event.ScreenshotEvent?
        then (Some("control_response_failed"), [])
        else
          match BodyOf(rest, r.imageBytes)
          case Failure(code) => (Some(code), [])
          case Success(image) => (None, [Delivered(r, image)])
      else if r.final then (if r.ok then None else Some(r.errorCode), [Delivered(r, [])])
      else
        var (error, more) := CallOn(codec, command, rest, left);
        (error, [Delivered(r, [])] + more)
  }

  /** What the scanner makes of the bytes read so far is settled, whatever follows them. */
  lemma ScanSettles(codec: Codec, buffered: seq<Byte>, s: seq<Byte>, budget: nat)
    requires Lawful(codec) && buffered != [] && !IsBlank(buffered[0]) && buffered <= Visible(s, budget)
    ensures match codec.scan(buffered)
            case More => Visible(s, budget) == buffered ==> NextValue(codec, s, budget).None?
            case Bad => NextValue(codec, s, budget).None?
            case Found(r, n) =>
              0 < n <= |buffered| <= budget && NextValue(codec, s, budget) == Some((r, s[n..], budget - n))
  {
  }

  lemma BlankIsSkipped(codec: Codec, s: seq<Byte>, budget: nat)
    requires s != [] && budget > 0 && IsBlank(s[0])
    ensures NextValue(codec, s, budget) == NextValue(codec, s[1..], budget - 1)
  {
  }

  lemma NothingVisible(codec: Codec, s: seq<Byte>, budget: nat)
    requires Visible(s, budget) == []
    ensures NextValue(codec, s, budget).None?
  {
  }

  // ----- The decoder, which reads ahead, behind a limit on what it may read

  class Decoder {
    const codec: Codec
    const source: Stream<Byte>
    var buffered: seq<Byte>
    var allowance: nat

    constructor (codec: Codec, source: Stream<Byte>)
      ensures this.codec == codec && this.source == source && buffered == [] && allowance == MAX_HEADERS
    {
      this.codec, this.source, buffered, allowance := codec, source, [], MAX_HEADERS;
    }

    /** Everything still to come. */
    ghost function Rest(): seq<Byte>
      reads this, source
    {
      buffered + source.Rest()
    }

    /** What may still be decoded, read ahead or not. */
    ghost function Budget(): nat
      reads this
    {
      allowance + |buffered|
    }

    /** One read through the limit: as much of what has arrived as fits. */
    method Fill() returns (ok: bool)
      modifies this`buffered, this`allowance, source
      ensures Rest() == old(Rest()) && Budget() == old(Budget())
      ensures ok ==> |buffered| > |old(buffered)| && old(buffered) <= buffered
      ensures !ok ==> buffered == old(buffered) && Visible(Rest(), Budget()) == buffered
    {
      var piece := source.Arrived();
      var n := if |piece| <= allowance then |piece| else allowance;
      if n == 0 {
        return false;
      }
      var more := source.Take(n);
      assert buffered + (more + source.Rest()) == (buffered + more) + source.Rest();
      buffered := buffered + more;
      allowance := allowance - n;
      ok := true;
    }

    /** decoder.Decode: the next value, whatever is read ahead on the way. */
    method Decode() returns (r: Option<Response>)
      requires Lawful(codec)
      modifies this`buffered, this`allowance, source
      ensures var next := NextValue(codec, old(Rest()), old(Budget()));
              && (r.None? <==> next.None?)
              && (r.Some? ==> next.value == (r.value, Rest(), Budget()))
    {
      hide NextValue;
      hide Lawful;
      hide IsBlank;
      ghost var s, budget := Rest(), Budget();
      while true
        invariant NextValue(codec, Rest(), Budget()) == NextValue(codec, s, budget)
        decreases |Rest()|, |Rest()| - |buffered|
      {
        if buffered == [] {
          var more := Fill();
          if !more {
            NothingVisible(codec, Rest(), Budget());
            return None;
          }
        } else if IsBlank(buffered[0]) {
          BlankIsSkipped(codec, Rest(), Budget());
          assert Rest()[1..] == buffered[1..] + source.Rest();
          buffered := buffered[1..];
        } else {
          ScanSettles(codec, buffered, Rest(), Budget());
          match codec.scan(buffered) {
            case More =>
              var more := Fill();
              if !more {
                return None;
              }
            case Bad => return None;
            case Found(response, n) =>
              assert Rest()[n..] == buffered[n..] + source.Rest();
              buffered := buffered[n..];
              return Some(response);
          }
        }
      }
    }
  }

  /** readScreenshotBody, on the decoder's buffer followed by the socket. */
  method ReadScreenshotBody(reader: Stream<Byte>, size: int) returns (r: Result<seq<Byte>, string>)
    modifies reader
    ensures r == BodyOf(old(reader.Rest()), size)
  {
    ghost var all := reader.Rest();
    if size <= 0 || size > MAX_SCREENSHOT_BYTES {
      return Failure("capture_invalid_image");
    }
    var newline := reader.ReadFull(1);
    if newline.None? || newline.value[0] != NEWLINE {
      return Failure("control_response_failed");
    }
    assert reader.Rest() == all[1..];
    var data := reader.ReadFull(size);
    if data.None? {
      return Failure("control_response_failed");
    }
    assert data.value == all[1..1 + size];
    r := Success(data.value);
  }

  /** The image after a screenshot's response: the buffer is joined with the socket. */
  method TakeBody(decoder: Decoder, size: int) returns (r: Result<seq<Byte>, string>)
    ensures r == BodyOf(decoder.Rest(), size)
  {
    var joined := new Stream([decoder.buffered] + decoder.source.chunks);
    assert joined.chunks[1..] == decoder.source.chunks;
    r := ReadScreenshotBody(joined, size);
  }

  /** Call, after the request has been sent. */
  method Call(codec: Codec, command: string, connection: Stream<Byte>)
    returns (error: Option<string>, delivered: seq<Delivered>)
    requires Lawful(codec)
    modifies connection
    ensures (error, delivered) == CallOn(codec, command, old(connection.Rest()), MAX_HEADERS)
  {
    hide BodyOf;
    hide NextValue;
    hide Lawful;
    var decoder := new Decoder(codec, connection);
    assert [] + connection.Rest() == connection.Rest();
    ghost var all := CallOn(codec, command, connection.Rest(), MAX_HEADERS);
    delivered := [];
    while true
      invariant decoder.codec == codec && decoder.source == connection && fresh(decoder)
      invariant all.0 == CallOn(codec, command, decoder.Rest(), decoder.Budget()).0
      invariant all.1 == delivered + CallOn(codec, command, decoder.Rest(), decoder.Budget()).1
      decreases |decoder.Rest()|
    {
      assert delivered + [] == delivered;
      var next := decoder.Decode();
      if next.None? {
        return Some("control_response_failed"), delivered;
      }
      var response := next.value;
      if response.imageBytes != 0 || (response.ok && response.event.ScreenshotEvent?) {
        if command != "screenshot" || !response.ok || !response.final || !response.event.ScreenshotEvent? {
          return Some("control_response_failed"), delivered;
        }
        var body := TakeBody(decoder, response.imageBytes);
        if body.Failure? {
          return Some(body.error), delivered;
        }
        return None, delivered + [Delivered(response, body.value)];
      }
      ghost var more := CallOn(codec, command, decoder.Rest(), decoder.Budget()).1;
      assert delivered + ([Delivered(response, [])] + more) == delivered + [Delivered(response, [])] + more;
      delivered := delivered + [Delivered(response, [])];
      if response.final {
        return if response.ok then None else Some(response.errorCode), delivered;
      }
    }
  }
}
