/** The events a stream hands to its protocol through `send`. Header lists are
    reduced to what the protocols branch on: whether a header list is empty. */
module StreamEvents {
  import opened Bytes

  datatype StreamEvent =
    | Response(status: int)
    | InformationalResponse(status: int)
    | Body(data: Bytes, flush: bool)
    | ZeroCopySend
    | EndBody(withHeaders: bool)
    | TrailerHeadersSend(endStream: bool)
    | Data(data: Bytes)
    | EndData
    | ServerPush
    | StreamClosed

  /** Responses to HEAD and with these statuses have no body. */
  function SuppressBody(verb: string, status: int): bool {
    verb == "HEAD" || 100 <= status < 200 || status == 204 || status == 304
  }

  /** The bytes an event asks the protocol to put on its stream. */
  function BodyBytes(e: StreamEvent): Bytes {
    match e
    case Body(data, _) => data
    case Data(data) => data
    case _ => []
  }

  /** All body bytes of an event list, in order. */
  function AllBodyBytes(es: seq<StreamEvent>): Bytes {
    if es == [] then [] else AllBodyBytes(es[..|es| - 1]) + BodyBytes(es[|es| - 1])
  }

  lemma {:induction false} AllBodyBytesConcat(a: seq<StreamEvent>, b: seq<StreamEvent>)
    ensures AllBodyBytes(a + b) == AllBodyBytes(a) + AllBodyBytes(b)
  {
    if b == [] {
      assert a + b == a;
    } else {
      var n := |b| - 1;
      AllBodyBytesConcat(a, b[..n]);
      assert (a + b)[..|a + b| - 1] == a + b[..n];
    }
  }
}
