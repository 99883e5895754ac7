/** The `H2Protocol` object. Each method is the code of one task between two awaits, working
    in place on the tables; it is proved to do what the function of the same stretch in
    `H2Tables` says. The interleavings of these stretches are `H2System`. */
module H2Protocols {
  import opened Bytes
  import opened StreamEvents
  import opened StreamBuffers
  import opened H2Tables

  class H2Protocol {
    var streamBuffers: map<Sid, StreamBuffer>
    ghost var retired: map<Sid, StreamBuffer>
    var streams: set<Sid>
    var priority: Tree
    var connection: H2
    var hasData: bool
    var closed: bool

    /** The buffer objects this connection has created. */
    ghost var Repr: set<StreamBuffer>

    /** No two streams share a buffer object. */
    ghost predicate Valid()
      reads this
    {
      && (forall k <- streamBuffers :: streamBuffers[k] in Repr)
      && (forall k <- retired :: retired[k] in Repr)
      && (forall j, k :: j in streamBuffers && k in streamBuffers && j != k ==> streamBuffers[j] != streamBuffers[k])
      && (forall j, k :: j in streamBuffers && k in retired ==> streamBuffers[j] != retired[k])
      && (forall j, k :: j in retired && k in retired && j != k ==> retired[j] != retired[k])
      && streamBuffers.Keys !! retired.Keys
    }

    static ghost function Views(buffers: map<Sid, StreamBuffer>, repr: set<StreamBuffer>): map<Sid, Buffer>
      requires forall k <- buffers :: buffers[k] in repr
      reads repr
    {
      map k | k in buffers :: buffers[k].View()
    }

    ghost function View(): Tables
      requires Valid()
      reads this, Repr
    {
      Tables(Views(streamBuffers, Repr), Views(retired, Repr), streams, priority, connection, hasData, closed)
    }

    constructor (connWindow: int)
      ensures Valid() && Repr == {}
      ensures View() == Tables(map[], map[], {}, Tree({}, {}), H2(map[], connWindow, 16384, false, {}), false, false)
    {
      streamBuffers, retired, streams := map[], map[], {};
      priority := Tree({}, {});
      connection := H2(map[], connWindow, 16384, false, {});
      hasData, closed := false, false;
      Repr := {};
    }

    // -------------------------------------------------------------------------
    // The sending task

    method ForceCloseStream(k: Sid) returns (sender: Sender)
      requires Valid()
      modifies this, Repr
      ensures Valid() && Repr == old(Repr)
      ensures (View(), sender) == ForceClose(old(View()), k)
    {
      if k !in streamBuffers || k !in priority.nodes {
        return Crashed;
      }
      ghost var before := View();
      ShutBuffer(k);
      DropBuffer(k);
      assert View().bufs == before.bufs - {k};
      return Ready;
    }

    /** Deletes a stream from the buffer table and the tree. */
    method DropBuffer(k: Sid)
      requires Valid() && k in streamBuffers
      modifies this
      ensures Valid() && Repr == old(Repr)
      ensures View() == old(View()).Retire(k, old(View()).bufs[k])
    {
      ghost var before := View();
      retired := retired[k := streamBuffers[k]];
      streamBuffers := streamBuffers - {k};
      priority := priority.Remove(k);
      assert Views(streamBuffers, Repr) == before.bufs - {k};
      assert Views(retired, Repr) == before.retired[k := before.bufs[k]];
    }

    method PopFrom(k: Sid, n: nat) returns (data: Bytes)
      requires Valid() && k in streamBuffers
      modifies Repr
      ensures Valid()
      ensures var before := old(View()); var (popped, chunk) := Pop(before.bufs[k], n);
        View() == before.(bufs := before.bufs[k := popped]) && data == chunk
    {
      ghost var before := View();
      data := streamBuffers[k].PopChunk(n);
      assert Views(streamBuffers, Repr) == before.bufs[k := Pop(before.bufs[k], n).0];
      assert Views(retired, Repr) == before.retired;
    }

    method ShutBuffer(k: Sid)
      requires Valid() && k in streamBuffers
      modifies Repr
      ensures Valid()
      ensures var before := old(View()); View() == before.(bufs := before.bufs[k := Close(before.bufs[k])])
    {
      ghost var before := View();
      streamBuffers[k].Shut();
      assert Views(streamBuffers, Repr) == before.bufs[k := Close(before.bufs[k])];
      assert Views(retired, Repr) == before.retired;
    }

    /** `_send_data` up to its first flush. */
    method SendNext(k: Sid) returns (sender: Sender)
      requires Valid()
      modifies this, Repr
      ensures Valid() && Repr == old(Repr)
      ensures (View(), sender) == SendStep(old(View()), k)
    {
      hide ForceClose, CheckComplete, Pop;
      if !connection.HasWindow(k) || k !in streamBuffers {
        sender := ForceCloseStream(k);
        return;
      }
      var room := Min(connection.Window(k), connection.maxFrame);
      var data := PopFrom(k, Max(0, room));
      if data == [] {
        priority := priority.Block(k);
        sender := EndIfComplete(k);
      } else if connection.CanSend(k) {
        connection := connection.Record(k, SendData(data, room), Sendable, |data|);
        sender := Flushing(k);
      } else {
        sender := ForceCloseStream(k);
      }
    }

    /** `_send_data` after its data has been flushed. */
    method EndIfComplete(k: Sid) returns (sender: Sender)
      requires Valid()
      modifies this, Repr
      ensures Valid() && Repr == old(Repr)
      ensures (View(), sender) == CheckComplete(old(View()), k)
    {
      if k !in streamBuffers {
        sender := ForceCloseStream(k);
      } else if !(streamBuffers[k].complete && streamBuffers[k].buffer == []) {
        sender := Ready;
      } else if connection.CanSend(k) {
        connection := connection.Record(k, EndStream, Ended, 0);
        sender := Ending(k);
      } else {
        sender := ForceCloseStream(k);
      }
    }

    /** `_send_data` after the end of stream has been flushed. */
    method FinishEnding(k: Sid) returns (sender: Sender)
      requires Valid()
      modifies this, Repr
      ensures Valid() && Repr == old(Repr)
      ensures (View(), sender) == FinishStream(old(View()), k)
    {
      if k !in streamBuffers || k !in priority.nodes {
        sender := ForceCloseStream(k);
      } else {
        DropBuffer(k);
        sender := Ready;
      }
    }

    // -------------------------------------------------------------------------
    // `stream_send`

    method SendChunk(k: Sid, data: Bytes) returns (pos: Pos)
      requires Valid()
      modifies this, Repr
      ensures Valid() && Repr == old(Repr)
      ensures (View(), pos) == SendBody(old(View()), k, data)
    {
      if k !in priority.nodes {
        return Idle;
      }
      priority := priority.Unblock(k);
      hasData := true;
      if k !in streamBuffers {
        return Idle;
      }
      ghost var before := View();
      var outcome := streamBuffers[k].PushChunk(data);
      assert Views(streamBuffers, Repr) == before.bufs[k := Push(before.bufs[k], data).0];
      assert Views(retired, Repr) == before.retired;
      pos := if outcome == Waiting then InPush else Idle;
    }

    method SendHeaderFrame(k: Sid, endStream: bool)
      requires Valid()
      modifies this`connection
      ensures Valid() && View() == SendHeaderBlock(old(View()), k, endStream)
    {
      if connection.CanSend(k) {
        connection := connection.Record(k, SendHeaders(endStream), if endStream then Ended else Sendable, 0);
      }
    }

    method SendEndOfBody(k: Sid) returns (pos: Pos)
      requires Valid()
      modifies this, Repr
      ensures Valid() && Repr == old(Repr)
      ensures (View(), pos) == SendEnd(old(View()), k)
    {
      if k !in streamBuffers {
        return Idle;
      }
      ghost var before := View();
      streamBuffers[k].MarkComplete();
      assert Views(streamBuffers, Repr) == before.bufs[k := SetComplete(before.bufs[k])];
      assert Views(retired, Repr) == before.retired;
      if k !in priority.nodes {
        return Idle;
      }
      priority := priority.Unblock(k);
      hasData := true;
      pos := InDrain;
    }

    method CloseStreamOf(k: Sid)
      requires Valid()
      modifies this`streams, this`hasData
      ensures Valid() && View() == CloseStream(old(View()), k)
    {
      if k in streams {
        streams := streams - {k};
        hasData := true;
      }
    }

    /** `stream_send` up to its first wait. */
    method StreamSendEvent(k: Sid, e: StreamEvent) returns (pos: Pos)
      requires Valid()
      modifies this, Repr
      ensures Valid() && Repr == old(Repr)
      ensures (View(), pos) == StreamSend(old(View()), k, e)
    {
      pos := Idle;
      match e
      case Response(_) => SendHeaderFrame(k, false);
      case InformationalResponse(_) => SendHeaderFrame(k, false);
      case Body(data, flush) =>
        if !flush {
          pos := SendChunk(k, data);
        } else if connection.CanSend(k) && |data| <= connection.Window(k) && |data| <= connection.maxFrame {
          connection := connection.Record(k, SendDirect(data), Sendable, |data|);
        }
      case Data(data) => pos := SendChunk(k, data);
      case EndBody(withHeaders) =>
        if withHeaders {
          SendHeaderFrame(k, true);
        } else {
          pos := SendEndOfBody(k);
        }
      case EndData => pos := SendEndOfBody(k);
      case TrailerHeadersSend(endStream) =>
        if k in priority.nodes {
          priority := priority.Unblock(k);
          hasData := true;
          pos := if k in streamBuffers then InTrailers(endStream) else Idle;
        }
      case StreamClosed => CloseStreamOf(k);
      case ZeroCopySend =>
      case ServerPush =>
    }

    /** The trailers branch of `stream_send` once its drain has returned. */
    method FinishTrailers(k: Sid, endStream: bool, raw: Bytes) returns (pos: Pos)
      requires Valid()
      modifies this, Repr
      ensures Valid() && Repr == old(Repr)
      ensures (View(), pos) == ResumeTrailers(old(View()), k, endStream, raw)
    {
      pos := Idle;
      if connection.CanSend(k) {
        SendHeaderFrame(k, endStream);
        if !endStream && raw != [] {
          pos := SendChunk(k, raw);
        }
      }
    }

    // -------------------------------------------------------------------------
    // The reader

    method CreateStream(k: Sid)
      requires Valid() && k !in streamBuffers && k !in retired
      modifies this
      ensures Valid() && fresh(Repr - old(Repr))
      ensures View() == Create(old(View()), k)
    {
      ghost var before := View();
      var buffer := new StreamBuffer();
      Repr := Repr + {buffer};
      streams := streams + {k};
      streamBuffers := streamBuffers[k := buffer];
      priority := priority.Insert({k});
      assert Views(streamBuffers, Repr) == before.bufs[k := EMPTY_BUFFER];
      assert Views(retired, Repr) == before.retired;
    }

    /** `_window_updated`; `None` means every stream. */
    method WindowUpdated(k: Option<Sid>)
      requires Valid()
      modifies this`priority, this`hasData
      ensures Valid()
      ensures View() == if k == None then UnblockAll(old(View())) else UnblockOne(old(View()), k.value)
    {
      if k == None {
        var left := streamBuffers.Keys;
        while left != {}
          invariant left <= streamBuffers.Keys && Valid()
          invariant priority == old(priority).(active := old(priority).active + (streamBuffers.Keys - left))
          decreases left
        {
          var j :| j in left;
          priority := priority.Unblock(j);
          left := left - {j};
        }
      } else if k.value in streamBuffers {
        priority := priority.Unblock(k.value);
      }
      hasData := true;
    }

    method PriorityUpdated(names: set<Sid>)
      requires Valid()
      modifies this`priority, this`hasData
      ensures Valid() && View() == Reprioritize(old(View()), names)
    {
      priority := priority.Insert(names);
      hasData := true;
    }

    /** `handle(Closed())`: every stream is closed in turn. */
    method HandleClosed()
      requires Valid()
      modifies this`closed, this`streams, this`hasData
      ensures Valid() && View() == Disconnect(old(View()))
    {
      closed := true;
      while streams != {}
        invariant Valid() && closed
        decreases streams
      {
        var k :| k in streams;
        CloseStreamOf(k);
      }
      hasData := true;
    }
  }
}
