# SRTConnection, modelled in Dafny

This project models `SRTConnection` from SRTHaishinKit. The class manages one logical SRT
(Secure Reliable Transport) connection that is carried by two sockets: an outgoing one, which sends,
and an incoming one. The incoming socket is kept only so that server-side disconnects can be detected.
The model covers:

- the URI guard of `connect`;
- the order in which `connect` records the URI, clears the `connectionBroken` latch and brings the two sockets up;
- the delegate callback `status(_:status:)`, which merges two socket statuses into `connected` and latches `connectionBroken`;
- the close order of `close`;
- `attachStream`.

Everything is in `srt_connection.dfy`, module `Srt`:

- `SrtConnection` is a class with the source's fields: `uri`, `connected`, `connectionBroken`, `incomingSocket`, `outgoingSocket` and `streams`. A ghost `log` records every close call the connection makes, in order.
- `SrtSocket` stands for both socket classes (`SRTOutgoingSocket`, `SRTIncomingSocket`). It is seen only through its interface: a `direction`, a `status`, a `delegate`, and the arguments of its last connect call. Its connect outcome is an input: `Connect` takes an optional error and throws it when present. `ChangeStatus` is the socket storing a new status and notifying its delegate.
- `SrtStream` is an attached stream. The connection only ever closes it.
- The status callback is also stated as a pure step, `Fuse`. A sequence of socket status changes is `Run` over `Report`s. The lemmas about `Run` give the properties that hold across many callbacks: the latch, when `connected` holds, and independence from the interleaving.
- `ValidateUri` is the guard. A thrown error is `Outcome.Fail`.

Two client methods show what callers can rely on. `Lifecycle` runs one full cycle: connect, both sockets come up, one breaks and recovers, close, reconnect. `StaleIncomingRelatches` is described below.

Behaviour worth knowing, as the code has it:

- `connect` never touches `connected`. A reconnect therefore keeps the previous value until the next status callback; `Lifecycle` shows `connected` still true right after a reconnect.
- `connect` replaces `outgoingSocket` before it touches `incomingSocket`. If the new outgoing socket fails, the callback goes on reading the incoming socket of the previous attempt. If that socket is BROKEN, the next status change of the new outgoing socket sets `connectionBroken` again, just after `connect` cleared it. `StaleIncomingRelatches` proves this. Sockets from earlier attempts also keep this connection as their delegate. The callback ignores which socket reported, so their changes trigger a fusion too.
- `InterleavingIndependent` needs the starting stored statuses not to be BROKEN. Without that, the order matters: if the stored incoming status starts out BROKEN, a first report from the outgoing socket fuses with it and sets the latch. A first report from the incoming socket overwrites it before any fusion. `InterleavingMattersFromBroken` proves this.

## Model

| member | source | states |
|---|---|---|
| `Srt.ValidateUri` | Sources/SRT/SRTConnection.swift:30-33 | A URI is accepted exactly when it is present and has scheme "srt", a host and a port. The accepted result carries that host and port. A rejection is always `invalidArgument("Invalid Configuration")`. |
| `Srt.Fuse` | Sources/SRT/SRTConnection.swift:85-88 | One fusion: `connected` is true iff both stored statuses are CONNECTED. `broken` is true iff it was already true or either stored status is BROKEN. |
| `Srt.RunStored` | Sources/SRT/SRTConnection.swift:81-85 | After any sequence of reports, each stored status is the last one its socket reported, or the starting status if it reported nothing. |
| `Srt.RunConnected` | Sources/SRT/SRTConnection.swift:85 | After at least one callback, `connected` is exactly "both current stored statuses are CONNECTED". It does not depend on which socket reported last. |
| `Srt.ConnectedNeedsBothReports` | Sources/SRT/SRTConnection.swift:82-85 | Starting from statuses that are not CONNECTED, `connected` ends true iff both sockets reported and the last report of each was CONNECTED. |
| `Srt.BrokenLatch` | Sources/SRT/SRTConnection.swift:86-88 | Once `broken` is true, no sequence of callbacks sets it back to false. |
| `Srt.RunBroken` | Sources/SRT/SRTConnection.swift:86-88 | Starting from statuses that are not BROKEN, `broken` ends true iff it started true or some socket reported BROKEN. |
| `Srt.InterleavingIndependent` | Sources/SRT/SRTConnection.swift:81-89 | Two interleavings of the same per-socket report sequences give the same final statuses and flags, provided no starting status is BROKEN. |
| `Srt.InterleavingMattersFromBroken` | Sources/SRT/SRTConnection.swift:81-89 | With the stored incoming status BROKEN, the same two reports (one per socket, neither BROKEN) latch `broken` when the outgoing one comes first and do not when the incoming one comes first, so the condition of `InterleavingIndependent` is needed. |
| `Srt.StreamClosesInOrder` | Sources/SRT/SRTConnection.swift:53-55 | The close loop makes one close per entry of `streams`, and the i-th close is of the i-th attached stream. |
| `Srt.StreamClosedOncePerAttach` | Sources/SRT/SRTConnection.swift:53-55 | Each stream is closed exactly as many times as it was attached. There is no de-duplication. |
| `Srt.CloseOrder` | Sources/SRT/SRTConnection.swift:52-58 | `close` closes all streams first, in attachment order. Then it closes the outgoing socket if present, then the incoming socket if present, and nothing else. |
| `Srt.SrtConnection.constructor` | Sources/SRT/SRTConnection.swift:8-24 | A new connection has no URI, is neither connected nor broken, and owns no sockets and no streams. |
| `Srt.SrtConnection.Connect` | Sources/SRT/SRTConnection.swift:30-50 | A rejected URI throws `invalidArgument` and changes nothing. Otherwise `uri` is set and `connectionBroken` cleared. A fresh outgoing socket, delegated to this connection, is connected to the address and options derived from the URI. If that throws, the error propagates and `incomingSocket` keeps its old value. Otherwise a fresh incoming socket is created, delegated and connected the same way, and its error, if any, propagates with the new outgoing socket kept. `connected`, `streams` and the log do not change. |
| `Srt.SrtConnection.Close` | Sources/SRT/SRTConnection.swift:52-58 | Appends exactly `CloseEvents(streams, outgoingSocket, incomingSocket)` to the log. It changes no other field, so `connected`, `connectionBroken`, `uri`, the sockets and `streams` keep their values. |
| `Srt.SrtConnection.AttachStream` | Sources/SRT/SRTConnection.swift:60-62 | Appends the stream to the end of `streams`, with no uniqueness check, and changes nothing else. |
| `Srt.SrtConnection.Status` | Sources/SRT/SRTConnection.swift:81-89 | With a socket missing, nothing changes. With both present, the flags become `Fuse` of the old flags and the two sockets' stored statuses. The reporting socket and the reported status are ignored. |
| `Srt.SrtSocket.ChangeStatus` | Sources/SRT/SRTConnection.swift:79-89 | The socket stores the new status and notifies its delegate. If the delegate lacks a socket, its flags do not change. Otherwise its flags become `Fuse` of the old flags and its two current sockets' stored statuses, whether or not the reporting socket is one of them. When the reporter is one of the two, the delegate's statuses and flags move by exactly one `Deliver` step. |
| `Srt.SrtSocket.Connect` | Sources/SRT/SRTConnection.swift:45 | The socket records the address and options it was asked to connect to, and throws exactly the given failure. |
| `Srt.StaleIncomingRelatches` | Sources/SRT/SRTConnection.swift:82-88 | After a reconnect whose outgoing socket failed, a BROKEN incoming socket left from the previous attempt makes the next outgoing status change set `connectionBroken` again. |

## Left out

- Host resolution (`sockaddr_in`: `inet_pton`, then a blocking `gethostbyname`, with a zeroed address when lookup fails) is a foreign C call and I/O. The resolved address is the opaque value `SockAddrIn(host, port)`.
- The byte swap `CFSwapInt16BigToHost` of the port is platform plumbing and is not modelled.
- `SRTSocketOption.from(uri:)` is not part of this model. The option set is the opaque value `OptionsFrom(uri)`.
- The socket types (SRTOutgoingSocket, SRTIncomingSocket) are not part of this model: their handshake, their own `close()` and their status transitions. A new socket is assumed to start in INIT. A socket's connect changes no status; status changes arrive only through `ChangeStatus`. Closing a socket or a stream is recorded in the ghost log and does not change its status.
- `Srt.SrtConnection.Connect` requires the port of an accepted URI to fit in 16 bits. In Swift, `UInt16(port)` traps on a larger port; it does not throw.
- Key-value observing of `connected` and `connectionBroken` (`@objc dynamic`) is a runtime feature. They are plain fields. The `if connectionBroken` test before clearing the latch, which only avoids a change notification, is kept as written.
- Threading: the source has no locking, and each callback is modelled as one atomic method call.
- `SRTConnection.version` (the library version string) and `deinit` (which empties `streams`) are lifecycle plumbing and are not modelled.
