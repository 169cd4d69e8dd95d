/*
 * A model of SRTConnection: one logical SRT connection carried by two
 * sockets (an outgoing one and an incoming one), its status fusion, its
 * sticky "broken" latch, and the order in which it closes what it holds.
 */
module Srt {

  datatype Option<+T> = None | Some(value: T)

  /** Errors thrown by `connect`: its own validation error, or whatever the socket collaborator throws. */
  datatype SrtError = InvalidArgument(message: string) | ConnectionFailed(message: string)

  /** The outcome of a throwing call that returns nothing. */
  datatype Outcome = Pass | Fail(error: SrtError)

  datatype Result<+T> = Success(value: T) | Failure(error: SrtError)

  /** The message `connect` throws with when the URI is rejected. */
  const InvalidConfiguration := "Invalid Configuration"

  /** The scheme `connect` accepts. */
  const SrtScheme := "srt"

  /** The parts of a Foundation URL that the connection reads; `query` stands for the rest, read only by option parsing. */
  datatype Uri = Uri(scheme: Option<string>, host: Option<string>, port: Option<nat>, query: string)

  /** Host and port taken from a URI that passed validation. */
  datatype Endpoint = Endpoint(host: string, port: nat)

  newtype UInt16 = x: int | 0 <= x < 0x1_0000

  /** The resolved IPv4 address handed to both sockets; how the host is resolved is not modelled. */
  datatype SockAddr = SockAddrIn(host: string, port: UInt16)

  /** The socket option set derived from a URI; option parsing is not modelled, so the set is the URI it came from. */
  datatype SocketOptions = OptionsFrom(uri: Uri)

  /** The socket statuses of the SRT library (SRT_SOCKSTATUS). */
  datatype SockStatus = Init | Opened | Listening | Connecting | Connected | Broken | Closing | Closed | NonExist

  /** The two kinds of socket a connection owns: SRTOutgoingSocket and SRTIncomingSocket. */
  datatype Direction = Outgoing | Incoming

  /** The arguments of a socket's connect call. */
  datatype ConnectTarget = ConnectTarget(addr: SockAddr, options: SocketOptions)

  // ---------------------------------------------------------------------
  // URI validation (the guard of `connect`)
  // ---------------------------------------------------------------------

  /** Accepts a URI only when it is present, has scheme "srt", a host and a port. */
  function ValidateUri(uri: Option<Uri>): (r: Result<Endpoint>)
    ensures r.Success? <==>
      uri.Some? && uri.value.scheme == Some(SrtScheme) && uri.value.host.Some? && uri.value.port.Some?
    ensures r.Success? ==> r.value == Endpoint(uri.value.host.value, uri.value.port.value)
    ensures r.Failure? ==> r.error == InvalidArgument(InvalidConfiguration)
  {
    match uri
    case None => Failure(InvalidArgument(InvalidConfiguration))
    case Some(u) =>
      match (u.scheme, u.host, u.port)
      case (Some(scheme), Some(host), Some(port)) =>
        if scheme == SrtScheme then Success(Endpoint(host, port))
        else Failure(InvalidArgument(InvalidConfiguration))
      case _ => Failure(InvalidArgument(InvalidConfiguration))
  }

  /** The conversion `UInt16(port)` traps for a port that does not fit; callers must not pass one. */
  predicate PortFits(uri: Option<Uri>)
  {
    ValidateUri(uri).Success? ==> ValidateUri(uri).value.port < 0x1_0000
  }

  // ---------------------------------------------------------------------
  // Status fusion (the delegate callback) as a pure step
  // ---------------------------------------------------------------------

  /** The connection's two observable flags. */
  datatype Flags = Flags(connected: bool, broken: bool)

  /**
   * One run of the status callback with both sockets present: `connected` is
   * recomputed from the two stored statuses, `broken` is latched on when either is BROKEN.
   */
  function Fuse(f: Flags, incoming: SockStatus, outgoing: SockStatus): (r: Flags)
    ensures r.connected <==> incoming == Connected && outgoing == Connected
    ensures r.broken <==> f.broken || incoming == Broken || outgoing == Broken
  {
    var connected := incoming == Connected && outgoing == Connected;
    if !f.broken && (incoming == Broken || outgoing == Broken) then Flags(connected, true)
    else Flags(connected, f.broken)
  }

  /** A status change that one of the two current sockets reports to the connection. */
  datatype Report = Report(from: Direction, status: SockStatus)

  /** What the callback sees and keeps: the two sockets' stored statuses and the flags. */
  datatype Observed = Observed(incoming: SockStatus, outgoing: SockStatus, flags: Flags)

  /** A socket stores its new status, then notifies the connection, which fuses. */
  function Deliver(o: Observed, n: Report): Observed
  {
    var stored := if n.from == Incoming then o.(incoming := n.status) else o.(outgoing := n.status);
    stored.(flags := Fuse(o.flags, stored.incoming, stored.outgoing))
  }

  /** Deliver a whole sequence of reports, in order. */
  function Run(o: Observed, t: seq<Report>): Observed
    decreases |t|
  {
    if t == [] then o else Run(Deliver(o, t[0]), t[1..])
  }

  /** The statuses reported by the socket of direction `d`, in order. */
  function Reports(t: seq<Report>, d: Direction): seq<SockStatus>
    decreases |t|
  {
    if t == [] then []
    else (if t[0].from == d then [t[0].status] else []) + Reports(t[1..], d)
  }

  /** The last status in `s`, or `init` when `s` is empty. */
  function LastOr(init: SockStatus, s: seq<SockStatus>): SockStatus
  {
    if s == [] then init else s[|s| - 1]
  }

  /** Every report comes from exactly one of the two sockets. */
  lemma {:induction false} ReportsPartition(t: seq<Report>)
    ensures |Reports(t, Incoming)| + |Reports(t, Outgoing)| == |t|
    decreases |t|
  {
    if t != [] {
      ReportsPartition(t[1..]);
    }
  }

  /** After a run, each stored status is the last one its socket reported. */
  lemma {:induction false} RunStored(o: Observed, t: seq<Report>)
    ensures Run(o, t).incoming == LastOr(o.incoming, Reports(t, Incoming))
    ensures Run(o, t).outgoing == LastOr(o.outgoing, Reports(t, Outgoing))
    decreases |t|
  {
    if t != [] {
      var o' := Deliver(o, t[0]);
      RunStored(o', t[1..]);
      var restIn, restOut := Reports(t[1..], Incoming), Reports(t[1..], Outgoing);
      if t[0].from == Incoming {
        assert Reports(t, Incoming) == [t[0].status] + restIn;
        assert Reports(t, Outgoing) == restOut;
        assert LastOr(o.incoming, [t[0].status] + restIn) == LastOr(t[0].status, restIn);
      } else {
        assert Reports(t, Outgoing) == [t[0].status] + restOut;
        assert Reports(t, Incoming) == restIn;
        assert LastOr(o.outgoing, [t[0].status] + restOut) == LastOr(t[0].status, restOut);
      }
    }
  }

  /** After at least one report, `connected` holds exactly when both stored statuses are CONNECTED. */
  lemma {:induction false} RunConnected(o: Observed, t: seq<Report>)
    requires |t| > 0
    ensures Run(o, t).flags.connected <==> Run(o, t).incoming == Connected && Run(o, t).outgoing == Connected
    decreases |t|
  {
    if |t| > 1 {
      RunConnected(Deliver(o, t[0]), t[1..]);
    } else {
      assert Run(o, t) == Run(Deliver(o, t[0]), []);
    }
  }

  /**
   * Starting from stored statuses that are not CONNECTED (as for a freshly
   * created pair of sockets), `connected` holds after a run exactly when each
   * socket has reported, and the last status each one reported is CONNECTED.
   */
  lemma ConnectedNeedsBothReports(o: Observed, t: seq<Report>)
    requires |t| > 0
    requires o.incoming != Connected && o.outgoing != Connected
    ensures Run(o, t).flags.connected <==>
      Reports(t, Incoming) != [] && Reports(t, Incoming)[|Reports(t, Incoming)| - 1] == Connected &&
      Reports(t, Outgoing) != [] && Reports(t, Outgoing)[|Reports(t, Outgoing)| - 1] == Connected
  {
    RunStored(o, t);
    RunConnected(o, t);
  }

  /** The broken latch is never cleared by any sequence of reports. */
  lemma {:induction false} BrokenLatch(o: Observed, t: seq<Report>)
    requires o.flags.broken
    ensures Run(o, t).flags.broken
    decreases |t|
  {
    if t != [] {
      BrokenLatch(Deliver(o, t[0]), t[1..]);
    }
  }

  /**
   * Starting from stored statuses that are not BROKEN (as for a freshly created
   * pair of sockets), the connection ends broken exactly when it started broken
   * or some socket reported BROKEN.
   */
  lemma {:induction false} RunBroken(o: Observed, t: seq<Report>)
    requires o.incoming != Broken && o.outgoing != Broken
    ensures Run(o, t).flags.broken <==>
      o.flags.broken || Broken in Reports(t, Incoming) || Broken in Reports(t, Outgoing)
    decreases |t|
  {
    if t != [] {
      var o' := Deliver(o, t[0]);
      var restIn, restOut := Reports(t[1..], Incoming), Reports(t[1..], Outgoing);
      var head := [t[0].status];
      if t[0].from == Incoming {
        assert Reports(t, Incoming) == head + restIn && Reports(t, Outgoing) == restOut;
      } else {
        assert Reports(t, Outgoing) == head + restOut && Reports(t, Incoming) == restIn;
      }
      if t[0].status == Broken {
        BrokenLatch(o', t[1..]);
      } else {
        RunBroken(o', t[1..]);
      }
    }
  }

  /**
   * Order independence: two interleavings of the same per-socket report
   * sequences leave the connection in the same state, provided no stored
   * status is BROKEN at the start.
   */
  lemma InterleavingIndependent(o: Observed, t1: seq<Report>, t2: seq<Report>)
    requires o.incoming != Broken && o.outgoing != Broken
    requires Reports(t1, Incoming) == Reports(t2, Incoming)
    requires Reports(t1, Outgoing) == Reports(t2, Outgoing)
    ensures Run(o, t1) == Run(o, t2)
  {
    ReportsPartition(t1);
    ReportsPartition(t2);
    RunStored(o, t1);
    RunStored(o, t2);
    RunBroken(o, t1);
    RunBroken(o, t2);
    if t1 != [] {
      RunConnected(o, t1);
      RunConnected(o, t2);
    }
  }

  /**
   * The starting condition of InterleavingIndependent is needed: with the
   * stored incoming status BROKEN, an outgoing report fused before the
   * incoming one overwrites it latches the flag, while the other order does not.
   */
  lemma {:induction false} InterleavingMattersFromBroken(o: Observed, a: SockStatus, b: SockStatus)
    requires o.incoming == Broken && o.outgoing != Broken && !o.flags.broken
    requires a != Broken && b != Broken
    ensures var t1, t2 := [Report(Outgoing, a), Report(Incoming, b)], [Report(Incoming, b), Report(Outgoing, a)];
      Reports(t1, Incoming) == Reports(t2, Incoming) && Reports(t1, Outgoing) == Reports(t2, Outgoing) &&
      Run(o, t1).flags.broken && !Run(o, t2).flags.broken
  {
    var t1, t2 := [Report(Outgoing, a), Report(Incoming, b)], [Report(Incoming, b), Report(Outgoing, a)];
    var rest1, rest2 := t1[1..], t2[1..];
    assert rest1 == [Report(Incoming, b)] && rest2 == [Report(Outgoing, a)];
    assert rest1[1..] == [] && rest2[1..] == [];
    assert Reports(rest1, Incoming) == [b] && Reports(rest1, Outgoing) == [];
    assert Reports(rest2, Incoming) == [] && Reports(rest2, Outgoing) == [a];
    var o1 := Deliver(o, t1[0]);
    assert o1.flags.broken;
    BrokenLatch(o1, rest1);
    var o2 := Deliver(Deliver(o, t2[0]), rest2[0]);
    assert Run(o, t2) == Run(Deliver(o, t2[0]), rest2) == Run(o2, rest2[1..]) == o2;
  }

  // ---------------------------------------------------------------------
  // Close ordering
  // ---------------------------------------------------------------------

  /** A close call the connection makes, as recorded in its ghost log. */
  datatype Event = StreamClosed(stream: SrtStream) | SocketClosed(socket: SrtSocket)

  /** One close per entry of `ss`, in order. */
  function StreamCloses(ss: seq<SrtStream>): seq<Event>
    decreases |ss|
  {
    if ss == [] then [] else StreamCloses(ss[..|ss| - 1]) + [StreamClosed(ss[|ss| - 1])]
  }

  /** The close of an owned socket, or nothing when the socket is absent. */
  function SocketClose(s: SrtSocket?): seq<Event>
  {
    if s == null then [] else [SocketClosed(s)]
  }

  /** Everything `close` closes: the streams, then the outgoing socket, then the incoming socket. */
  function CloseEvents(ss: seq<SrtStream>, outgoing: SrtSocket?, incoming: SrtSocket?): seq<Event>
  {
    StreamCloses(ss) + SocketClose(outgoing) + SocketClose(incoming)
  }

  /** The i-th stream close is the close of the i-th attached stream. */
  lemma {:induction false} StreamClosesInOrder(ss: seq<SrtStream>)
    ensures |StreamCloses(ss)| == |ss|
    ensures forall i :: 0 <= i < |ss| ==> StreamCloses(ss)[i] == StreamClosed(ss[i])
    decreases |ss|
  {
    if ss != [] {
      StreamClosesInOrder(ss[..|ss| - 1]);
    }
  }

  /** A stream is closed once per time it was attached: no more, no less. */
  lemma {:induction false} StreamClosedOncePerAttach(ss: seq<SrtStream>, s: SrtStream)
    ensures multiset(StreamCloses(ss))[StreamClosed(s)] == multiset(ss)[s]
    decreases |ss|
  {
    if ss != [] {
      var init, last := ss[..|ss| - 1], ss[|ss| - 1];
      StreamClosedOncePerAttach(init, s);
      assert ss == init + [last];
    }
  }

  /** Streams are closed first and in attachment order, then the outgoing socket, then the incoming one. */
  lemma {:induction false} CloseOrder(ss: seq<SrtStream>, outgoing: SrtSocket?, incoming: SrtSocket?)
    ensures |CloseEvents(ss, outgoing, incoming)| ==
      |ss| + (if outgoing == null then 0 else 1) + (if incoming == null then 0 else 1)
    ensures forall i :: 0 <= i < |ss| ==> CloseEvents(ss, outgoing, incoming)[i] == StreamClosed(ss[i])
    ensures CloseEvents(ss, outgoing, incoming)[|ss|..] == SocketClose(outgoing) + SocketClose(incoming)
  {
    StreamClosesInOrder(ss);
    var e := CloseEvents(ss, outgoing, incoming);
    assert e == StreamCloses(ss) + (SocketClose(outgoing) + SocketClose(incoming));
  }

  // ---------------------------------------------------------------------
  // Collaborators
  // ---------------------------------------------------------------------

  /** An attached data stream; the connection only ever closes it. */
  class SrtStream {
    constructor ()
    {
    }
  }

  /** A socket of either kind, seen from its interface: a status, a delegate, a connect call. */
  class SrtSocket {
    const direction: Direction
    var status: SockStatus
    var delegate: SrtConnection?
    /** The arguments of the last connect call, if any. */
    var target: Option<ConnectTarget>

    constructor (direction: Direction)
      ensures this.direction == direction && status == Init && delegate == null && target == None
    {
      this.direction := direction;
      status := Init;
      delegate := null;
      target := None;
    }

    /** The handshake is not modelled: its outcome is the input `failure`, which is thrown when present. */
    method Connect(addr: SockAddr, options: SocketOptions, failure: Option<SrtError>) returns (err: Option<SrtError>)
      modifies this`target
      ensures target == Some(ConnectTarget(addr, options))
      ensures err == failure
    {
      target := Some(ConnectTarget(addr, options));
      err := failure;
    }

    /** The delegate, as a set: empty when there is none. */
    function Delegates(): set<SrtConnection>
      reads this
    {
      if delegate == null then {} else {delegate}
    }

    /** A status change of this socket: it stores the status and notifies its delegate. */
    method ChangeStatus(s: SockStatus)
      modifies this`status, Delegates()`connected, Delegates()`connectionBroken
      ensures status == s
      ensures delegate != null && (delegate.incomingSocket == null || delegate.outgoingSocket == null) ==>
        delegate.connected == old(delegate.connected) && delegate.connectionBroken == old(delegate.connectionBroken)
      ensures delegate != null && delegate.incomingSocket != null && delegate.outgoingSocket != null ==>
        Flags(delegate.connected, delegate.connectionBroken) ==
          Fuse(Flags(old(delegate.connected), old(delegate.connectionBroken)),
               delegate.incomingSocket.status, delegate.outgoingSocket.status)
      ensures (delegate != null && delegate.Valid() &&
               delegate.incomingSocket != null && delegate.outgoingSocket != null &&
               (this == delegate.incomingSocket || this == delegate.outgoingSocket)) ==>
        delegate.View() == Deliver(old(delegate.View()), Report(direction, s))
    {
      status := s;
      if delegate != null {
        delegate.Status(this, s);
      }
    }
  }

  // ---------------------------------------------------------------------
  // The connection
  // ---------------------------------------------------------------------

  class SrtConnection {
    var uri: Option<Uri>
    var connected: bool
    var connectionBroken: bool
    var incomingSocket: SrtSocket?
    var outgoingSocket: SrtSocket?
    var streams: seq<SrtStream>
    /** The close calls made so far, in order. */
    ghost var log: seq<Event>

    /** Each socket field holds a socket of its own kind, so the two are never the same object. */
    ghost predicate Valid()
      reads this
    {
      (incomingSocket != null ==> incomingSocket.direction == Incoming) &&
      (outgoingSocket != null ==> outgoingSocket.direction == Outgoing)
    }

    /** What the status callback reads and writes, when both sockets are present. */
    ghost function View(): Observed
      reads this, incomingSocket, outgoingSocket
      requires incomingSocket != null && outgoingSocket != null
    {
      Observed(incomingSocket.status, outgoingSocket.status, Flags(connected, connectionBroken))
    }

    constructor ()
      ensures Valid()
      ensures uri == None && !connected && !connectionBroken
      ensures incomingSocket == null && outgoingSocket == null && streams == [] && log == []
    {
      uri := None;
      connected := false;
      connectionBroken := false;
      incomingSocket := null;
      outgoingSocket := null;
      streams := [];
      log := [];
    }

    /**
     * Validates the URI, records it, clears the broken latch, then creates and
     * connects the outgoing socket and, only if that succeeded, the incoming one.
     * A failure part-way leaves whatever was already replaced in place.
     */
    method Connect(uri: Option<Uri>, outgoingFailure: Option<SrtError>, incomingFailure: Option<SrtError>)
      returns (r: Outcome)
      requires Valid()
      requires PortFits(uri)
      modifies this
      ensures Valid()
      ensures streams == old(streams) && log == old(log) && connected == old(connected)
      ensures ValidateUri(uri).Failure? ==>
        r == Fail(InvalidArgument(InvalidConfiguration)) &&
        this.uri == old(this.uri) && connectionBroken == old(connectionBroken) &&
        outgoingSocket == old(outgoingSocket) && incomingSocket == old(incomingSocket)
      ensures ValidateUri(uri).Success? ==>
        var e := ValidateUri(uri).value;
        var target := ConnectTarget(SockAddrIn(e.host, e.port as UInt16), OptionsFrom(uri.value));
        this.uri == uri && !connectionBroken &&
        outgoingSocket != null && fresh(outgoingSocket) && outgoingSocket.status == Init &&
        outgoingSocket.delegate == this && outgoingSocket.target == Some(target) &&
        (outgoingFailure.Some? ==> r == Fail(outgoingFailure.value) && incomingSocket == old(incomingSocket)) &&
        (outgoingFailure.None? ==>
          incomingSocket != null && fresh(incomingSocket) && incomingSocket.status == Init &&
          incomingSocket.delegate == this && incomingSocket.target == Some(target) &&
          r == (if incomingFailure.Some? then Fail(incomingFailure.value) else Pass))
    {
      var v := ValidateUri(uri);
      if v.Failure? {
        return Fail(v.error);
      }
      this.uri := uri;
      var options := OptionsFrom(uri.value);
      var addr := SockAddrIn(v.value.host, v.value.port as UInt16);

      if connectionBroken {
        connectionBroken := false;
      }

      var outgoing := new SrtSocket(Outgoing);
      outgoingSocket := outgoing;
      outgoing.delegate := this;
      var err := outgoing.Connect(addr, options, outgoingFailure);
      if err.Some? {
        return Fail(err.value);
      }

      var incoming := new SrtSocket(Incoming);
      incomingSocket := incoming;
      incoming.delegate := this;
      err := incoming.Connect(addr, options, incomingFailure);
      if err.Some? {
        return Fail(err.value);
      }
      r := Pass;
    }

    /** Closes every attached stream in order, then the outgoing socket, then the incoming socket. */
    method Close()
      modifies this`log
      ensures log == old(log) + CloseEvents(streams, outgoingSocket, incomingSocket)
    {
      for i := 0 to |streams|
        invariant log == old(log) + StreamCloses(streams[..i])
      {
        assert streams[..i + 1][..i] == streams[..i];
        log := log + [StreamClosed(streams[i])];
      }
      assert streams[..|streams|] == streams;
      if outgoingSocket != null {
        log := log + [SocketClosed(outgoingSocket)];
      }
      if incomingSocket != null {
        log := log + [SocketClosed(incomingSocket)];
      }
    }

    /** Appends a stream, with no uniqueness check. */
    method AttachStream(stream: SrtStream)
      modifies this`streams
      ensures streams == old(streams) + [stream]
    {
      streams := streams + [stream];
    }

    /**
     * The delegate callback. It ignores which socket reported and what it
     * reported: with both sockets present it fuses their stored statuses,
     * otherwise it does nothing.
     */
    method Status(socket: SrtSocket, status: SockStatus)
      modifies this`connected, this`connectionBroken
      ensures incomingSocket == null || outgoingSocket == null ==>
        connected == old(connected) && connectionBroken == old(connectionBroken)
      ensures incomingSocket != null && outgoingSocket != null ==>
        Flags(connected, connectionBroken) ==
          Fuse(Flags(old(connected), old(connectionBroken)), incomingSocket.status, outgoingSocket.status)
    {
      if incomingSocket == null || outgoingSocket == null {
        return;
      }
      connected := incomingSocket.status == Connected && outgoingSocket.status == Connected;
      if !connectionBroken && (incomingSocket.status == Broken || outgoingSocket.status == Broken) {
        connectionBroken := true;
      }
    }
  }

  // ---------------------------------------------------------------------
  // Clients
  // ---------------------------------------------------------------------

  /**
   * After a partial reconnect (the new outgoing socket failed), the callback
   * still reads the incoming socket of the previous attempt: if that one is
   * BROKEN, the first status change of the new outgoing socket re-latches
   * `connectionBroken`, which `connect` had just cleared.
   */
  method StaleIncomingRelatches(c: SrtConnection, uri: Option<Uri>, e: SrtError, s: SockStatus)
    returns (r: Outcome)
    requires c.Valid() && PortFits(uri) && ValidateUri(uri).Success?
    requires c.incomingSocket != null && c.incomingSocket.status == Broken
    modifies c
    ensures r == Fail(e) && c.incomingSocket == old(c.incomingSocket) && c.connectionBroken
  {
    r := c.Connect(uri, Some(e), None);
    assert !c.connectionBroken;
    var outgoing := c.outgoingSocket;
    outgoing.ChangeStatus(s);
  }

  /** A full cycle: connect, both sockets come up, one breaks, recovers, and a reconnect clears the latch. */
  method Lifecycle(uri: Option<Uri>)
    requires PortFits(uri) && ValidateUri(uri).Success?
  {
    // A first attempt whose outgoing socket fails leaves no incoming socket: status changes are ignored.
    var partial := new SrtConnection();
    var r := partial.Connect(uri, Some(ConnectionFailed("")), None);
    assert partial.incomingSocket == null;
    partial.outgoingSocket.ChangeStatus(Connected);
    assert !partial.connected && !partial.connectionBroken;

    var c := new SrtConnection();
    r := c.Connect(uri, None, None);
    assert r == Pass && !c.connected && !c.connectionBroken;
    var outgoing, incoming := c.outgoingSocket, c.incomingSocket;

    outgoing.ChangeStatus(Connected);
    assert !c.connected;
    incoming.ChangeStatus(Connected);
    assert c.connected && !c.connectionBroken;

    incoming.ChangeStatus(Broken);
    assert !c.connected && c.connectionBroken;
    incoming.ChangeStatus(Connected);
    assert c.connected && c.connectionBroken;

    c.Close();
    assert c.connected && c.connectionBroken;

    r := c.Connect(uri, None, None);
    assert !c.connectionBroken && c.connected;
  }
}
