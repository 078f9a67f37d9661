/** The connection object: its bounded send queue, its shutdown flag and its writer. */
module Clients {
  import opened Protocol
  import opened Model
  import Frame

  class Client {
    ghost const id: ClientId
    const conn: Frame.Sink
    var queue: seq<Payload>           // c.send
    var closed: bool                  // c.done
    var reading: bool                 // the read loop has not returned
    var writing: bool                 // the write loop has not returned
    var replay: Option<Replay>        // where sendCachedConfig is, on the read loop
    ghost var hist: History

    ghost function View(): Peer
      reads this, conn
    {
      Peer(queue, closed, reading, writing, replay, conn.bytes, hist)
    }

    constructor (ghost id: ClientId, ghost joined: nat)
      ensures View() == NewPeer(joined)
      ensures this.id == id && conn.name == id && fresh(conn)
    {
      this.id := id;
      conn := new Frame.Sink(id);
      queue, closed, reading, writing, replay := [], false, true, true, None;
      hist := NewPeer(joined).hist;
    }

    /** Non-blocking: false when the client is closed or its queue is full. */
    method Enqueue(payload: Payload, ghost o: Origin) returns (ok: bool)
      modifies this
      ensures ok == (!old(View()).closed && old(View()).Room())
      ensures View() == if ok then old(View()).Accept(payload, o) else old(View()).Refuse(payload)
    {
      hist := hist.(addressed := hist.addressed + [payload]);
      if closed || |queue| >= SEND_BUFFER {
        return false;
      }
      queue := queue + [payload];
      hist := hist.(log := hist.log + [Entry(payload, o)]);
      ok := true;
    }

    /** The select of enqueueWithTimeout: a ready send may lose against a shutdown, a full
        queue may time out, and the choice among ready cases is arbitrary. */
    method EnqueueWithTimeout(payload: Payload, ghost o: Origin) returns (ok: bool)
      modifies this
      ensures ok ==> old(View()).Room()
      ensures View() == if ok then old(View()).Accept(payload, o) else old(View()).Refuse(payload)
    {
      hist := hist.(addressed := hist.addressed + [payload]);
      var sent: bool := *;
      if !sent || |queue| >= SEND_BUFFER {
        return false;
      }
      queue := queue + [payload];
      hist := hist.(log := hist.log + [Entry(payload, o)]);
      ok := true;
    }

    /** The next sendToClientBlocking of a cached reply, up to the disconnect it may cause. */
    method SendNextCached() returns (ok: bool)
      requires replay.Some? && replay.value.rest != [] && hist.replays != []
      modifies this
      ensures ok ==> old(View()).Room()
      ensures View() == old(View()).Advance(ok)
    {
      var Replay(original, rest) := replay.value;
      ok := EnqueueWithTimeout(rest[0], Cached(|hist.replays| - 1));
      replay := if !ok || |rest| == 1 then None else Some(Replay(original, rest[1..]));
    }

    ghost method Record(h: History)
      modifies this`hist
      ensures View() == old(View()).(hist := h)
    {
      hist := h;
    }

    method SetReplay(r: Option<Replay>)
      modifies this`replay
      ensures View() == old(View()).(replay := r)
    {
      replay := r;
    }

    method StopReading()
      modifies this`reading
      ensures View() == old(View()).(reading := false)
    {
      reading := false;
    }

    method StopWriting()
      modifies this`writing
      ensures View() == old(View()).(writing := false)
    {
      writing := false;
    }

    method Close()
      modifies this
      ensures View() == old(View()).Close()
    {
      closed := true;
    }

    /** One turn of the write loop that takes a payload. A closed connection refuses the
        write; otherwise a failed write has sent n bytes of the frame. */
    method WriteNext() returns (ok: bool, ghost n: nat)
      requires queue != []
      modifies this, conn
      ensures View() == old(View()).Drained(ok, n)
      ensures ok == old(View()).Writes(ok)
    {
      n := 0;
      var payload := queue[0];
      queue := queue[1..];
      ok := false;
      if !closed {
        ghost var before := conn.bytes;
        ghost var whole := Frame.FrameBytes(payload);
        ok := Frame.WriteFrame(conn, payload);
        n :| 0 <= n <= |whole| && conn.bytes == before + whole[..n];
        if ok {
          hist := hist.(written := hist.written + [payload]);
        }
      }
      if !ok {
        writing := false;
      }
    }
  }
}
