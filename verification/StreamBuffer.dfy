/** `StreamBuffer` of the HTTP/2 protocol: a byte buffer shared by one producer
    (an application's sends on one stream) and one consumer (the sending task).

    The value `Buffer` is the specification of the object; `Push`, `Resume`, `Pop`,
    `SetComplete` and `Close` say what each stretch of code between two awaits does.
    The class at the end works in place and is proved against these functions. */
module StreamBuffers {
  import opened Bytes

  const HIGH_WATER: nat := 2 * 16384
  const LOW_WATER: nat := HIGH_WATER / 2

  /** `isEmpty` and `paused` are events: `wait` returns once the event is set. */
  datatype Buffer = Buffer(data: Bytes, complete: bool, isEmpty: bool, paused: bool) {
    /** The `complete` property: nothing more will come and nothing is left. */
    predicate Exhausted() { complete && data == [] }
  }

  const EMPTY_BUFFER := Buffer([], false, false, false)

  function SetComplete(b: Buffer): Buffer {
    b.(complete := true)
  }

  function Close(b: Buffer): Buffer {
    Buffer([], true, true, true)
  }

  /** What `push` does before it returns, raises or waits for `paused`. */
  datatype PushOutcome = Rejected | Returned | Waiting

  function Push(b: Buffer, chunk: Bytes): (Buffer, PushOutcome) {
    if b.complete then (b, Rejected)
    else
      var grown := b.(data := b.data + chunk, isEmpty := false);
      (grown, if |grown.data| >= HIGH_WATER then Waiting else Returned)
  }

  /** The rest of a `push` that waited: the event is cleared again. */
  function Resume(b: Buffer): Buffer {
    b.(paused := false)
  }

  function Pop(b: Buffer, maxLength: nat): (Buffer, Bytes) {
    var length := Min(|b.data|, maxLength);
    var rest := b.data[length..];
    (b.(data := rest,
        paused := b.paused || length < LOW_WATER,
        isEmpty := b.isEmpty || rest == []),
     b.data[..length])
  }

  // ---------------------------------------------------------------------------
  // The object

  class StreamBuffer {
    var buffer: Bytes
    var complete: bool
    var isEmpty: bool
    var paused: bool

    function View(): Buffer
      reads this
    {
      Buffer(buffer, complete, isEmpty, paused)
    }

    constructor ()
      ensures View() == EMPTY_BUFFER
    {
      buffer, complete, isEmpty, paused := [], false, false, false;
    }

    method MarkComplete()
      modifies this
      ensures View() == SetComplete(old(View()))
    {
      complete := true;
    }

    method Shut()
      modifies this
      ensures View() == Close(old(View()))
    {
      complete := true;
      buffer := [];
      isEmpty := true;
      paused := true;
    }

    method PushChunk(chunk: Bytes) returns (outcome: PushOutcome)
      modifies this
      ensures (View(), outcome) == Push(old(View()), chunk)
    {
      if complete {
        return Rejected;
      }
      buffer := buffer + chunk;
      isEmpty := false;
      if |buffer| >= HIGH_WATER {
        return Waiting;
      }
      return Returned;
    }

    method ResumePush()
      requires paused
      modifies this
      ensures View() == Resume(old(View()))
    {
      paused := false;
    }

    method PopChunk(maxLength: nat) returns (data: Bytes)
      modifies this
      ensures (View(), data) == Pop(old(View()), maxLength)
    {
      var length := Min(|buffer|, maxLength);
      data := buffer[..length];
      buffer := buffer[length..];
      if |data| < LOW_WATER {
        paused := true;
      }
      if |buffer| == 0 {
        isEmpty := true;
      }
    }
  }
}
