/**
 * The TCP endpoints of `src/tcp.rs` and how they drive the reactor.
 *
 * The socket calls (`bind`, `accept`, `connect`, `set_nonblocking`, `read`,
 * `write`, `shutdown`) are not modelled; their outcomes are inputs. The reactor
 * of the running executor, which the source reaches through the thread-local
 * `EXECUTOR`, is passed explicitly, and so is the waker of the polling context.
 */
module Tcp {
  import opened Io
  import opened Tasks
  import opened Reactors

  /** An address as the socket layer reports it; the core never looks inside. */
  datatype SocketAddr = SocketAddr(host: string, port: nat)

  /** A listening socket, known to the core by its descriptor. */
  datatype TcpListener = TcpListener(fd: Fd)

  /** A connected socket, known to the core by its descriptor. */
  datatype TcpStream = TcpStream(fd: Fd)

  /** `poll_flush`: there is nothing to flush, so it is always ready and changes nothing. */
  function PollFlush(): (p: Poll<Result<()>>)
    ensures p.Ready? && p.value.Ok?
  {
    Ready(Ok(()))
  }

  /**
   * `poll_shutdown`: shut both directions down and report the outcome; a
   * would-block here is an error like any other, and the reactor is not touched.
   */
  function PollShutdown(outcome: Result<()>): (p: Poll<Result<()>>)
    ensures p.Ready?
    ensures p.value.Ok? <==> outcome.Ok?
    ensures outcome.Err? ==> p.value.error == outcome.error
  {
    match outcome
    case Ok(_) => Ready(Ok(()))
    case Err(e) => Ready(Err(e))
  }

  /** `TcpListener::accept`: wrap the accepted socket; it is not registered with the reactor. */
  function Accept(outcome: Result<(Fd, SocketAddr)>): (r: Result<(TcpStream, SocketAddr)>)
    ensures r.Ok? <==> outcome.Ok?
    ensures r.Ok? ==> r.value.0.fd == outcome.value.0 && r.value.1 == outcome.value.1
    ensures r.Err? ==> r.error == outcome.error
  {
    match outcome
    case Ok((fd, addr)) => Ok((TcpStream(fd), addr))
    case Err(e) => Err(e)
  }

  /**
   * The verdict of a non-blocking call, as the three `poll_*` functions classify
   * it: done, would block (Pending), or failed.
   */
  function Classify<T>(outcome: Result<T>): (p: Poll<Result<T>>)
    ensures p.Pending? <==> outcome.Err? && IsWouldBlock(outcome.error)
    ensures p.Ready? ==> p.value == outcome
  {
    if outcome.Err? && IsWouldBlock(outcome.error) then Pending else Ready(outcome)
  }

  /**
   * `TcpListener::bind`: on success the new descriptor is registered with full
   * interest; on failure the reactor is untouched.
   */
  method Bind(outcome: Result<Fd>, reactor: Reactor) returns (r: Result<TcpListener>)
    modifies reactor, reactor.poll
    ensures r.Ok? <==> outcome.Ok?
    ensures r.Ok? ==> r.value.fd == outcome.value
    ensures r.Err? ==> r.error == outcome.error
    ensures outcome.Ok? ==> reactor.Snapshot() == Added(old(reactor.Snapshot()), outcome.value)
    ensures outcome.Err? ==> reactor.Snapshot() == old(reactor.Snapshot())
  {
    match outcome {
      case Ok(fd) =>
        reactor.Add(fd);
        r := Ok(TcpListener(fd));
      case Err(e) =>
        r := Err(e);
    }
  }

  /**
   * `TcpStream::connect`: connect, switch to non-blocking mode, register with
   * full interest. Either call failing fails the whole and registers nothing.
   */
  method Connect(connected: Result<Fd>, nonblocking: Result<()>, reactor: Reactor) returns (r: Result<TcpStream>)
    modifies reactor, reactor.poll
    ensures r.Ok? <==> connected.Ok? && nonblocking.Ok?
    ensures r.Ok? ==> r.value.fd == connected.value
    ensures connected.Err? ==> r == Err(connected.error)
    ensures connected.Ok? && nonblocking.Err? ==> r == Err(nonblocking.error)
    ensures r.Ok? ==> reactor.Snapshot() == Added(old(reactor.Snapshot()), r.value.fd)
    ensures r.Err? ==> reactor.Snapshot() == old(reactor.Snapshot())
  {
    if connected.Err? {
      return Err(connected.error);
    }
    if nonblocking.Err? {
      return Err(nonblocking.error);
    }
    var fd := connected.value;
    reactor.Add(fd);
    r := Ok(TcpStream(fd));
  }

  /**
   * `poll_next` on a listener: an accepted connection is ready (and, as in the
   * source, not registered); would-block registers read interest with the
   * context's waker and is pending; any other error is ready as an error.
   */
  method PollNext(listener: TcpListener, cx: Waker, outcome: Result<(Fd, SocketAddr)>, reactor: Reactor)
    returns (p: Poll<Option<Result<(TcpStream, SocketAddr)>>>)
    modifies reactor, reactor.poll
    ensures p.Pending? <==> outcome.Err? && IsWouldBlock(outcome.error)
    ensures p.Ready? ==> p.value == Some(Accept(outcome))
    ensures p.Pending? ==> reactor.Snapshot() == Modified(old(reactor.Snapshot()), listener.fd, Read, cx)
    ensures p.Ready? ==> reactor.Snapshot() == old(reactor.Snapshot())
  {
    match outcome {
      case Ok((fd, addr)) =>
        p := Ready(Some(Ok((TcpStream(fd), addr))));
      case Err(e) =>
        if IsWouldBlock(e) {
          reactor.Modify(listener.fd, Read, cx);
          p := Pending;
        } else {
          p := Ready(Some(Err(e)));
        }
    }
  }

  /**
   * `poll_next` as evidently intended: an accepted stream is registered with
   * the reactor like every other constructed endpoint, so that a later
   * would-block on it stores a waker the readiness source can fire.
   */
  method PollNextRegistered(listener: TcpListener, cx: Waker, outcome: Result<(Fd, SocketAddr)>, reactor: Reactor)
    returns (p: Poll<Option<Result<(TcpStream, SocketAddr)>>>)
    modifies reactor, reactor.poll
    ensures p.Pending? <==> outcome.Err? && IsWouldBlock(outcome.error)
    ensures p.Ready? ==> p.value == Some(Accept(outcome))
    ensures p.Pending? ==> reactor.Snapshot() == Modified(old(reactor.Snapshot()), listener.fd, Read, cx)
    ensures outcome.Ok? ==> reactor.Snapshot() == Added(old(reactor.Snapshot()), outcome.value.0)
    ensures outcome.Err? && !IsWouldBlock(outcome.error) ==> reactor.Snapshot() == old(reactor.Snapshot())
    ensures outcome.Ok? ==> outcome.value.0 in reactor.poll.subs
    ensures listener.fd in old(reactor.poll.subs) && WakersSubscribed(old(reactor.Snapshot())) ==>
      WakersSubscribed(reactor.Snapshot())
  {
    ghost var t0 := reactor.Snapshot();
    match outcome {
      case Ok((fd, addr)) =>
        reactor.Add(fd);
        if WakersSubscribed(t0) {
          AddedKeepsWakersSubscribed(t0, fd);
        }
        p := Ready(Some(Ok((TcpStream(fd), addr))));
      case Err(e) =>
        if IsWouldBlock(e) {
          reactor.Modify(listener.fd, Read, cx);
          if WakersSubscribed(t0) {
            ModifiedKeepsWakersSubscribed(t0, listener.fd, Read, cx);
          }
          p := Pending;
        } else {
          p := Ready(Some(Err(e)));
        }
    }
  }

  /**
   * `poll_write`: bytes accepted are ready; would-block registers write interest
   * with the context's waker and is pending; any other error is ready as an error.
   */
  method PollWrite(stream: TcpStream, cx: Waker, outcome: Result<nat>, reactor: Reactor) returns (p: Poll<Result<nat>>)
    modifies reactor, reactor.poll
    ensures p == Classify(outcome)
    ensures p.Pending? ==> reactor.Snapshot() == Modified(old(reactor.Snapshot()), stream.fd, Write, cx)
    ensures p.Ready? ==> reactor.Snapshot() == old(reactor.Snapshot())
  {
    match outcome {
      case Ok(n) =>
        return Ready(Ok(n));
      case Err(e) =>
        if IsWouldBlock(e) {
          reactor.Modify(stream.fd, Write, cx);
          p := Pending;
        } else {
          return Ready(Err(e));
        }
    }
  }

  /**
   * The caller's read buffer: a fixed byte array of which the first `filled`
   * bytes hold data (`ReadBuf`; its initialised-but-unfilled part is not modelled).
   */
  class ReadBuf {
    const buf: array<byte>
    var filled: nat

    ghost predicate Valid()
      reads this
    {
      filled <= buf.Length
    }

    function Remaining(): nat
      reads this
      requires Valid()
    {
      buf.Length - filled
    }

    /** The bytes read so far. */
    function Filled(): seq<byte>
      reads this, buf
      requires Valid()
    {
      buf[..filled]
    }

    constructor (buf: array<byte>)
      ensures Valid() && this.buf == buf && filled == 0
    {
      this.buf := buf;
      filled := 0;
    }

    /** Copy `data` into the unfilled part and advance `filled` past it. */
    method Put(data: seq<byte>)
      requires Valid() && |data| <= Remaining()
      modifies this, buf
      ensures Valid() && filled == old(filled) + |data|
      ensures Filled() == old(Filled()) + data
      ensures buf[filled..] == old(buf[..])[filled..]
    {
      forall i | 0 <= i < |data| {
        buf[filled + i] := data[i];
      }
      filled := filled + |data|;
      assert Filled() == old(Filled()) + data by {
        assert forall i :: 0 <= i < old(filled) ==> buf[i] == old(buf[i]);
      }
    }
  }

  /**
   * `poll_read`: the bytes the read call delivered (never more than the unfilled
   * part holds) are appended to the buffer and the poll is ready; would-block
   * registers read interest with the context's waker and is pending; any other
   * error is ready as an error. Only a successful read touches the buffer.
   */
  method PollRead(stream: TcpStream, cx: Waker, outcome: Result<seq<byte>>, rb: ReadBuf, reactor: Reactor)
    returns (p: Poll<Result<()>>)
    requires rb.Valid()
    requires outcome.Ok? ==> |outcome.value| <= rb.Remaining()
    modifies reactor, reactor.poll, rb, rb.buf
    ensures rb.Valid()
    ensures p.Pending? <==> outcome.Err? && IsWouldBlock(outcome.error)
    ensures p.Ready? ==> (p.value.Ok? <==> outcome.Ok?)
    ensures p.Ready? && p.value.Err? ==> p.value.error == outcome.error
    ensures outcome.Ok? ==>
      && rb.filled == old(rb.filled) + |outcome.value|
      && rb.Filled() == old(rb.Filled()) + outcome.value
      && rb.buf[rb.filled..] == old(rb.buf[..])[rb.filled..]
    ensures outcome.Err? ==> rb.filled == old(rb.filled) && rb.buf[..] == old(rb.buf[..])
    ensures p.Pending? ==> reactor.Snapshot() == Modified(old(reactor.Snapshot()), stream.fd, Read, cx)
    ensures p.Ready? ==> reactor.Snapshot() == old(reactor.Snapshot())
  {
    match outcome {
      case Ok(data) =>
        rb.Put(data);
        p := Ready(Ok(()));
      case Err(e) =>
        if IsWouldBlock(e) {
          reactor.Modify(stream.fd, Read, cx);
          p := Pending;
        } else {
          p := Ready(Err(e));
        }
    }
  }

  /** `Drop for TcpStream`: the descriptor's subscription and both waker slots are removed. */
  method Drop(stream: TcpStream, reactor: Reactor)
    modifies reactor, reactor.poll
    ensures reactor.Snapshot() == Deleted(old(reactor.Snapshot()), stream.fd)
  {
    reactor.Delete(stream.fd);
  }

  /**
   * An accepted stream is not subscribed (`poll_next` never registers it), so a
   * would-block read on it stores a waker for a descriptor the readiness source
   * is never asked about: the table stops being coherent, and no event about
   * subscribed descriptors ever fires that waker.
   */
  lemma AcceptedStreamReadOrphansWaker(t: Table, accepted: Fd, cx: Waker, events: seq<Event>)
    requires accepted !in t.subs
    requires forall i :: 0 <= i < |events| ==> events[i].userdata in t.subs
    ensures !WakersSubscribed(Modified(t, accepted, Read, cx))
    ensures var m := Dispatch(Modified(t, accepted, Read, cx).wakers, events).wakers;
      ReadKey(accepted) in m && m[ReadKey(accepted)] == cx
  {
    var t' := Modified(t, accepted, Read, cx);
    assert ReadKey(accepted) / 2 !in t'.subs;
    UnsubscribedWakerNeverFires(t', ReadKey(accepted), events);
  }

  /**
   * With the accepted stream registered as `PollNextRegistered` does it, the same
   * would-block read keeps the table coherent, and a read event for the stream
   * wakes the stored waker.
   */
  lemma RegisteredAcceptedStreamReadIsWoken(t: Table, accepted: Fd, cx: Waker)
    requires WakersSubscribed(t)
    ensures var t' := Modified(Added(t, accepted), accepted, Read, cx);
      && WakersSubscribed(t')
      && Dispatch(t'.wakers, [Event(accepted, ReadReady)]).woken == [cx]
  {
    AddedKeepsWakersSubscribed(t, accepted);
    ModifiedKeepsWakersSubscribed(Added(t, accepted), accepted, Read, cx);
    var t' := Modified(Added(t, accepted), accepted, Read, cx);
    assert ReadKey(accepted) in t'.wakers && t'.wakers[ReadKey(accepted)] == cx;
    assert [Event(accepted, ReadReady)][1..] == [];
  }
}
