/** The multi-reactor echo server: an acceptor (main) reactor that hands each accepted
    connection to one of N sub-reactors in turn, sub-reactors that own a worker pool,
    and the per-connection Handler whose state machine is specified in module Connection.
    Selectors, threads and sleeping are not modelled: a readiness event is a call of
    Handler.Run with what the socket would deliver, and a pool thread running a queued
    Processer is a call of Handler.CompleteProcessing. */
module MultiThreadEchoServer {
  import opened Buffers
  import opened Channels
  import opened Connection
  import RoundRobin

  /** A sub-reactor's fixed thread pool, reduced to whether it still takes tasks. */
  class WorkerPool {
    var shutdown: bool

    constructor ()
      ensures !shutdown
    {
      shutdown := false;
    }

    /** `execute(task)`: a shut-down pool rejects the task (RejectedExecutionException). */
    method Execute() returns (accepted: bool)
      ensures accepted <==> !shutdown
    {
      accepted := !shutdown;
    }

    /** `shutdown()`: no new tasks; tasks already queued still run. */
    method Shutdown()
      modifies this
      ensures shutdown
    {
      shutdown := true;
    }
  }

  /** One connection: its socket, its selection key, the worker pool of its sub-reactor,
      the 1024-byte input buffer, the state and the Processer tasks still queued. */
  class Handler {
    const socket: Channel
    const sk: SelectionKey
    const pool: WorkerPool
    const input: ByteBuffer
    var state: Phase
    var pending: nat

    ghost function View(): Conn
      reads this, input, input.data, sk, socket
    {
      Conn(state, input.View(), sk.View(), socket.View(), pending)
    }

    ghost predicate Valid()
      reads this, input, input.data, sk, socket
    {
      input.Valid() && Inv(View()) && sk.attachment == this
    }

    /** Registers the accepted channel for read readiness and attaches the handler to its key. */
    constructor (c: Channel, workerPool: WorkerPool)
      requires c.open
      ensures Valid() && View() == Initial(c.View())
      ensures socket == c && pool == workerPool
      ensures fresh(sk) && fresh(input) && fresh(input.data)
    {
      socket := c;
      pool := workerPool;
      input := new ByteBuffer.Allocate(CAPACITY);
      state := Reading;
      pending := 0;
      sk := new SelectionKey.Register(OpRead);
      new;
      sk.Attach(this);
    }

    /** `run()`: dispatch on the state; an IOException closes the connection. `escaped`
        reports an unchecked exception leaving the call. */
    method Run(incoming: ReadOutcome, room: WriteOutcome) returns (escaped: bool)
      requires Valid()
      modifies this, input, input.data, socket, sk
      ensures Valid()
      ensures Outcome(View(), if escaped then Unchecked else Nothing)
              == RunStep(old(View()), incoming, room, old(pool.shutdown))
    {
      ghost var before := View();
      var raised := Nothing;
      if state == Reading {
        raised := Read(incoming);
      } else if state == Sending {
        raised := Send(room);
      }
      if raised == IOError {
        Close();
      }
      escaped := raised == Unchecked;
      InvPreservedByRun(before, incoming, room, pool.shutdown);
    }

    /** `read()`. */
    method Read(incoming: ReadOutcome) returns (raised: Raised)
      requires Valid() && state == Reading
      modifies this, input, input.data, socket, sk
      ensures Valid()
      ensures Outcome(View(), raised) == ReadOp(old(View()), incoming, old(pool.shutdown))
    {
      InvPreservedByRead(View(), incoming, pool.shutdown);
      var length := socket.Read(input, incoming);
      if length.IoFailure? {
        return IOError;
      }
      raised := Nothing;
      if length.value > 0 {
        state := Processing;
        var accepted := pool.Execute();
        if !accepted {
          return Unchecked;
        }
        pending := pending + 1;
      } else if length.value == -1 {
        Close();
      }
    }

    /** `send()`: flips the buffer on every call, then writes once. */
    method Send(room: WriteOutcome) returns (raised: Raised)
      requires Valid() && state == Sending
      modifies this, input, socket, sk
      ensures Valid()
      ensures Outcome(View(), raised) == SendOp(old(View()), room)
    {
      InvPreservedBySend(View(), room);
      input.Flip();
      var written := socket.Write(input, room);
      if written.IoFailure? {
        return IOError;
      }
      raised := Nothing;
      if input.Remaining() == 0 {
        state := Reading;
        var ok := sk.InterestOps(OpRead);
        if !ok {
          return Unchecked;
        }
        input.Clear();
      }
    }

    /** `close()`: cancel the key, close the socket; safe to call again. */
    method Close()
      modifies socket, sk
      ensures View() == CloseStep(old(View())) && sk.attachment == old(sk.attachment)
      ensures old(Valid()) ==> Valid()
    {
      if Valid() {
        InvPreservedByClose(View());
      }
      sk.Cancel();
      socket.Close();
    }

    /** `Processer.run` on a pool thread: consumes the queued task, moves to SENDING and
        switches the key to write readiness (the selector wake-up has no effect here). */
    method CompleteProcessing() returns (escaped: bool)
      requires Valid() && pending > 0
      modifies this, sk
      ensures Valid()
      ensures Outcome(View(), if escaped then Unchecked else Nothing) == ProcessStep(old(View()))
    {
      ghost var before := View();
      pending := pending - 1;
      state := Sending;
      var ok := sk.InterestOps(OpWrite);
      escaped := !ok;
      InvPreservedByProcess(before);
    }
  }

  /** A worker reactor: its event loop's running flag, its pool, and (as history) the
      handlers registered with it. */
  class SubReactor {
    var running: bool
    const pool: WorkerPool
    ghost var connections: seq<Handler>

    constructor ()
      ensures running && fresh(pool) && !pool.shutdown && connections == []
    {
      running := true;
      pool := new WorkerPool();
      connections := [];
    }

    /** `register(c)`: builds the connection's Handler on this reactor. On a closed channel
        the registration throws and no handler is made. */
    method Register(c: Channel) returns (h: Handler?)
      modifies this
      ensures running == old(running)
      ensures h != null <==> c.open
      ensures h != null ==> && fresh(h) && fresh(h.sk) && fresh(h.input) && fresh(h.input.data)
                            && h.Valid() && h.View() == Initial(c.View())
                            && h.socket == c && h.pool == pool
      ensures connections == old(connections) + (if h == null then [] else [h])
    {
      if !c.open {
        return null;
      }
      h := new Handler(c, pool);
      connections := connections + [h];
    }

    /** `stop()`: clear the running flag and shut the pool down (the wake-up has no effect here). */
    method Stop()
      modifies this, pool
      ensures !running && pool.shutdown && connections == old(connections)
    {
      running := false;
      pool.Shutdown();
    }
  }

  /** The acceptor reactor: N sub-reactors, the assignment counter, and whether its
      selector and server socket are open. `placements` records, for each accepted
      connection in order, the index of the sub-reactor it was handed to. */
  class MainReactor {
    const subReactors: seq<SubReactor>
    var next: nat
    var selectorOpen: bool
    var serverOpen: bool
    ghost var placements: seq<nat>

    ghost predicate Valid()
      reads this
    {
      && |subReactors| >= 1
      && (forall i, j :: 0 <= i < j < |subReactors| ==> subReactors[i] != subReactors[j])
      && |placements| == next
      && (forall i :: 0 <= i < |placements| ==> placements[i] == RoundRobin.Target(i, |subReactors|))
    }

    /** Opens the selector and server socket and creates one sub-reactor per processor. */
    constructor (n: nat)
      requires n >= 1
      ensures Valid() && |subReactors| == n && next == 0 && selectorOpen && serverOpen
      ensures forall s :: s in subReactors ==>
                fresh(s) && fresh(s.pool) && s.running && !s.pool.shutdown && s.connections == []
    {
      var subs: seq<SubReactor> := [];
      for i := 0 to n
        invariant |subs| == i
        invariant forall s :: s in subs ==>
                    fresh(s) && fresh(s.pool) && s.running && !s.pool.shutdown && s.connections == []
        invariant forall j, k :: 0 <= j < k < |subs| ==> subs[j] != subs[k]
      {
        var s := new SubReactor();
        subs := subs + [s];
      }
      subReactors := subs;
      next := 0;
      selectorOpen, serverOpen := true, true;
      placements := [];
    }

    /** `Acceptor.run`: `c` is what `accept()` returned (null when there was nothing to
        accept; an IOException from accept is caught and has the same effect). A connection
        goes to sub-reactor `next mod N` and the counter moves on by one, even when the
        registration then fails on a closed channel. */
    method Accept(c: Channel?) returns (h: Handler?)
      requires Valid()
      modifies this, subReactors[next % |subReactors|]
      ensures Valid()
      ensures selectorOpen == old(selectorOpen) && serverOpen == old(serverOpen)
      ensures c == null ==> next == old(next) && placements == old(placements) && h == null
      ensures c != null ==> && next == old(next) + 1
                            && placements == old(placements) + [RoundRobin.Target(old(next), |subReactors|)]
      ensures h != null <==> c != null && c.open
      ensures h != null ==> && fresh(h) && h.Valid() && h.View() == Initial(c.View())
                            && h.pool == subReactors[RoundRobin.Target(old(next), |subReactors|)].pool
      ensures forall i :: 0 <= i < |subReactors| ==>
                subReactors[i].running == old(subReactors[i].running)
                && subReactors[i].connections ==
                   if h != null && i == RoundRobin.Target(old(next), |subReactors|)
                   then old(subReactors[i].connections) + [h]
                   else old(subReactors[i].connections)
    {
      h := null;
      if c != null {
        var index := next % |subReactors|;
        next := next + 1;
        placements := placements + [index];
        h := subReactors[index].Register(c);
      }
    }

    /** The end of `run()`: close the selector, then the server socket, then stop every
        sub-reactor. An IOException from either close skips everything after it. */
    method Shutdown(selectorCloseFails: bool, serverCloseFails: bool)
      requires Valid()
      modifies this, set s | s in subReactors, set s | s in subReactors :: s.pool
      ensures Valid() && next == old(next) && placements == old(placements)
      ensures selectorOpen == (old(selectorOpen) && selectorCloseFails)
      ensures serverOpen == (old(serverOpen) && (selectorCloseFails || serverCloseFails))
      ensures forall s :: s in subReactors ==> s.connections == old(s.connections)
      ensures !selectorCloseFails && !serverCloseFails ==>
                forall s :: s in subReactors ==> !s.running && s.pool.shutdown
      ensures selectorCloseFails || serverCloseFails ==>
                forall s :: s in subReactors ==>
                  s.running == old(s.running) && s.pool.shutdown == old(s.pool.shutdown)
    {
      if selectorCloseFails {
        return;
      }
      selectorOpen := false;
      if serverCloseFails {
        return;
      }
      serverOpen := false;
      var i := 0;
      while i < |subReactors|
        invariant 0 <= i <= |subReactors|
        invariant forall j :: 0 <= j < i ==> !subReactors[j].running && subReactors[j].pool.shutdown
        invariant forall s :: s in subReactors ==> s.connections == old(s.connections)
        invariant !selectorOpen && !serverOpen && next == old(next) && placements == old(placements)
      {
        subReactors[i].Stop();
        i := i + 1;
      }
    }
  }
}
