/**
 A V1 router socket: it serves one request, and its handlers are called by its receive loop
 and by its error handler.
 */
module RouterSocketV1 {
  import opened Wrappers
  import opened Utf8
  import Streams
  import V1Response

  class RouterSocket {
    var canRespond: bool
    var headerReceived: bool
    var headerSent: bool
    var bytesSent: nat
    var bodyFrames: nat
    var fromClient: nat             // bytes_received
    var closeReceived: bool
    var header: Streams.Chan<string>
    var body: Streams.Chan<seq<Byte>>
    var errors: nat

    ghost function Abs(): V1Response.Response
      reads this
    {
      V1Response.Response(canRespond, headerReceived, headerSent, bytesSent, bodyFrames, header, body, errors)
    }

    constructor ()
      ensures Abs() == V1Response.FRESH && fromClient == 0
    {
      canRespond, headerReceived, headerSent, bytesSent, bodyFrames := false, false, false, 0, 0;
      fromClient, closeReceived, errors := 0, false, 0;
      header, body := Streams.Chan([], false), Streams.Chan([], false);
    }

    method OnText(text: string) returns (ok: bool)
      modifies this
      ensures (Abs(), ok) == V1Response.OnText(old(Abs()), text) && unchanged(`fromClient, `closeReceived)
    {
      if !canRespond {
        return false;
      }
      ok := SendHeader(text);
    }

    /** `send_target_response_header_text_to_client` */
    method SendHeader(text: string) returns (ok: bool)
      modifies this
      ensures (Abs(), ok) == V1Response.SendHeader(old(Abs()), text) && unchanged(`fromClient, `closeReceived)
    {
      if headerSent || headerReceived {
        return false;
      }
      headerReceived := true;
      if |Encode(text)| > V1Response.HEADER_MAX_SIZE {
        return false;
      }
      ok := !header.closed;
      header := Streams.Put(header, Streams.Ok(text));
      if ok {
        bytesSent := bytesSent + |Encode(text)|;
      }
      header := Streams.Close(header);
      headerSent := true;
    }

    method OnBinary(bin: seq<Byte>) returns (ok: bool)
      modifies this
      ensures (Abs(), ok) == V1Response.OnBinary(old(Abs()), bin) && unchanged(`fromClient, `closeReceived)
    {
      if !canRespond {
        return false;
      }
      bodyFrames := bodyFrames + 1;
      ok := SendBody(bin);
    }

    /** `send_target_response_body_binary_fragment_to_client` */
    method SendBody(bin: seq<Byte>) returns (ok: bool)
      modifies this`body, this`bytesSent
      ensures ok <==> headerReceived && headerSent && !old(body).closed
      ensures ok ==> body == Streams.Put(old(body), Streams.Ok(bin)) && bytesSent == old(bytesSent) + |bin|
      ensures !ok ==> unchanged(`body, `bytesSent)
    {
      if !headerReceived || !headerSent {
        return false;
      }
      ok := !body.closed;
      body := Streams.Put(body, Streams.Ok(bin));
      if ok {
        bytesSent := bytesSent + |bin|;
      }
    }

    method OnClose(frame: Option<int>)
      modifies this
      ensures Abs() == V1Response.OnClose(old(Abs()), fromClient, frame)
      ensures closeReceived && unchanged(`fromClient)
    {
      closeReceived := true;
      var code := if frame.Some? then frame.value else 4000;
      if canRespond && fromClient == 0 {
        if code == 1011 {
          errors := errors + 1;
        } else if code == 1008 {
          errors := errors + 1;
        }
      }
      if !header.closed || !body.closed {
        if code != 1000 {
          header := Streams.Put(header, Streams.Err);
          body := Streams.Put(body, Streams.Err);
          errors := errors + 1;
        }
        header := Streams.Close(header);
        body := Streams.Close(body);
      }
    }

    method TerminateAllConn()
      modifies this`header, this`body
      ensures Abs() == V1Response.Terminate(old(Abs()))
    {
      header := Streams.Put(header, Streams.Err);
      body := Streams.Put(body, Streams.Err);
      header := Streams.Close(header);
      body := Streams.Close(body);
    }
  }
}
