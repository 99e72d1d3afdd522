/** proxy.go: what each step of the two copy loops of a tunnel does. */
module TunnelUse {
  import opened Wire
  import opened Tunnel

  /** The server connection is direct, has not said anything, and belongs to a site that may be blocked. */
  predicate Doubtful(u: Setup, s: State) {
    u.direct && !u.alwaysDirect && !s.link.svMoved
  }

  /** A tunnel starts with what the request kept, or without its buffer and in its last states behind a response that
      switched protocols. Nothing has been read or written. */
  lemma {:induction false} Starts(u: Setup)
    ensures var s := Initial(u);
            s.s == STop && s.c == CReplay && !s.retry && s.flow == Flow([], [], [], []) &&
            s.buf == Buffer(if u.answered then Released else Held(u.kept), false) &&
            s.link == Link(u.answered, u.answered, u.answered) && s.wait == Waiting(false, 0, 0, 0) &&
            !s.clientClosed && !s.serverClosed && !s.sslBlocked
  {
  }

  /** An error ends the server's loop: it is taken for a block, and the tunnel retried, exactly when it is a timeout or a
      reset of a connection in doubt, and there is a parent. The end of the stream is no retry. */
  lemma {:induction false} ServerErrorDecides(u: Setup, s: State, e: ReadError, i: Input)
    requires s.s == SReadFailed(e)
    ensures Next(u, s, ByServer(i)) ==
            Some(s.(s := if Doubtful(u, s) && !u.parentEmpty && (e == Timeout || e == ConnReset) then SBlocked
                         else SCloseClient))
  {
  }

  /** What is read is written to the client; then both states move, and the next read follows. */
  lemma {:induction false} ServerReadsAndWrites(u: Setup, s: State, p: Bytes, e: ReadError, i: Input)
    ensures s.s == STop ==> Next(u, s, ByServer(i)) == Some(s.(s := SRead))
    ensures s.s == SRead && !s.serverClosed ==>
              Next(u, s, ByServer(Data(p))) == Some(s.(s := SWrite(p), flow := s.flow.(fromServer := s.flow.fromServer + p)))
    ensures s.s == SRead && s.serverClosed ==> Next(u, s, ByServer(Data(p))) == None
    ensures s.s == SRead ==> Next(u, s, ByServer(Fails(e))) == Some(s.(s := SReadFailed(e)))
    ensures s.s == SWrite(p) ==>
              var s' := s.(link := s.link.(delivered := true), flow := s.flow.(toClient := s.flow.toClient + p));
              Next(u, s, ByServer(Yes)) == Some(s'.(s := SSetRequest)) &&
                  Next(u, s, ByServer(No)) == Some(s'.(s := SCloseClient))
    ensures s.s == SSetRequest ==> Next(u, s, ByServer(i)) == Some(s.(s := SSetServer, link := s.link.(rqMoved := true)))
    ensures s.s == SSetServer ==> Next(u, s, ByServer(i)) == Some(s.(s := STop, link := s.link.(svMoved := true)))
  {
  }

  /** A retry tells the client's loop and waits for it; otherwise both connections are closed first. */
  lemma {:induction false} ServerLeaves(u: Setup, s: State, i: Input)
    ensures s.s == SBlocked ==> Next(u, s, ByServer(i)) == Some(s.(s := SNotify, retry := true))
    ensures s.s == SNotify && s.wait.notice == 0 ==>
              Next(u, s, ByServer(i)) == Some(s.(s := SWait, wait := s.wait.(notice := 1)))
    ensures s.s == SCloseClient ==> Next(u, s, ByServer(i)) == Some(s.(s := SCloseServer, clientClosed := true))
    ensures s.s == SCloseServer ==> Next(u, s, ByServer(i)) == Some(s.(s := SWait, serverClosed := true))
    ensures s.s == SWait ==> Next(u, s, ByServer(i)) == if s.c == CDone then Some(s.(s := SEnd)) else None
  {
  }

  /** What the buffer for a retry becomes when bytes of the client go through it: it is given up at 16384 bytes, and
      released once a response has begun. */
  function Keeping(u: Setup, s: State, p: Bytes): (b: Buffer) {
    if s.buf.raw.Released? then s.buf
    else if u.head + |s.buf.raw.b| >= 16384 then Buffer(Released, true)
    else if s.link.rqMoved then s.buf.(raw := Released)
    else s.buf.(raw := Held(s.buf.raw.b + p))
  }

  /** The client's loop begins, on a retry, with the bytes that were kept, and then with what had been read already. */
  lemma {:induction false} ClientBegins(u: Setup, s: State, i: Input)
    ensures s.c == CReplay && !u.isRetry ==> Next(u, s, ByClient(i)) == Some(s.(c := CBuffered))
    ensures s.c == CReplay && u.isRetry ==>
              Next(u, s, ByClient(i)) ==
              Some(s.(c := if i == Yes then CBuffered else CLeave, flow := s.flow.(toServer := s.flow.toServer + u.kept)))
    ensures s.c == CBuffered && u.buffered == [] ==> Next(u, s, ByClient(i)) == Some(s.(c := CTop))
    ensures s.c == CBuffered && u.buffered != [] ==>
              Next(u, s, ByClient(i)) ==
              Some(s.(c := CSend(u.buffered), buf := Keeping(u, s, u.buffered),
                      flow := s.flow.(fromClient := s.flow.fromClient + u.buffered)))
  {
  }

  /** It reads under a deadline exactly when the connection is in doubt, and what it reads is kept, and written to the
      server. */
  lemma {:induction false} ClientReadsAndWrites(u: Setup, s: State, p: Bytes, e: ReadError, i: Input)
    ensures s.c == CTop ==>
              Next(u, s, ByClient(i)) == Some(s.(c := CRead, wait := s.wait.(deadline := Doubtful(u, s))))
    ensures s.c == CRead && !s.clientClosed ==>
              Next(u, s, ByClient(Data(p))) == Some(s.(c := CStore(p), flow := s.flow.(fromClient := s.flow.fromClient + p)))
    ensures s.c == CRead && (e == Timeout ==> s.wait.deadline) ==>
              Next(u, s, ByClient(Fails(e))) == Some(s.(c := CReadFailed(e)))
    ensures s.c == CStore(p) ==> Next(u, s, ByClient(i)) == Some(s.(c := CSend(p), buf := Keeping(u, s, p)))
    ensures s.c == CSend(p) ==>
              Next(u, s, ByClient(i)) ==
              Some(s.(c := if i == Yes then CTop else CLeave, flow := s.flow.(toServer := s.flow.toServer + p)))
  {
  }

  /** An early close may be taken for a blocked site: when that is configured, the connection was in doubt, the client's
      connection was reset or closed, and the server has answered since; and it was early. A timeout ends the loop if the
      notice is there; any other error always does. */
  lemma {:induction false} ClientErrorDecides(u: Setup, s: State, e: ReadError, i: Input)
    ensures s.c == CReadFailed(e) ==>
              Next(u, s, ByClient(i)) ==
              Some(s.(c := if u.detectSslErr && Doubtful(u, s) && (e == ConnReset || e == EOF) then CMaybeSsl else CAsk(e)))
    ensures s.c == CMaybeSsl ==>
              Next(u, s, ByClient(i)) == Some(s.(c := if s.link.svMoved && i == Yes then CSslBlocked else CAsk(EOF)))
    ensures s.c == CSslBlocked ==> Next(u, s, ByClient(i)) == Some(s.(c := CLeave, sslBlocked := true))
    ensures s.c == CAsk(e) && e != Timeout ==> Next(u, s, ByClient(i)) == Some(s.(c := CLeave))
    ensures s.c == CAsk(Timeout) && s.wait.notice > 0 ==>
              Next(u, s, ByClient(i)) ==
              Some(s.(c := CLeave, wait := s.wait.(notice := s.wait.notice - 1, consumed := s.wait.consumed + 1)))
    ensures s.c == CAsk(Timeout) && s.wait.notice == 0 ==>
              var told := s.retry && (s.s == SWait || s.s == SEnd);
              Next(u, s, ByClient(i)) ==
              Some(s.(c := CTop, wait := s.wait.(ignored := s.wait.ignored + if told then 1 else 0)))
    ensures s.c == CLeave ==> Next(u, s, ByClient(i)) == Some(s.(c := CClose, wait := s.wait.(deadline := false)))
    ensures s.c == CClose ==> Next(u, s, ByClient(i)) == Some(s.(c := CDone, serverClosed := true))
  {
  }
}
