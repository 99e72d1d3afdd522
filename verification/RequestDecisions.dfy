/** proxy.go: what serve makes of an attempt, in the terms of its script. */
module RequestDecisions {
  import opened Wire
  import opened RequestLoop
  import Coding = ChunkedCoding
  import Body = ChunkedBody

  /** The connection is a direct one to a site that may have to be reached through a parent. */
  predicate OwnDirect(t: Turn) {
    t.rec.kind == Some(Direct) && t.x.site.kind == Own
  }

  /** There is another attempt, after any of these ends. */
  predicate Repeats(t: Turn) {
    t.held && (t.x.tries < 4 || OwnDirect(t))
  }

  /** All of the request is accepted, and the client's body is read without an error. */
  predicate FullySent(t: Turn, s: Script) {
    |t.rec.prologue| + |t.x.body| + |t.x.Plan().wire| <= s.limit && t.x.Plan().result == Coding.Done
  }

  lemma {:induction false} SentMeans(t: Turn, s: Script)
    ensures FullySent(t, s) ==> t.SendEnd(s) == Nil
    ensures t.SendEnd(s) == Nil ==> FullySent(t, s)
    ensures |t.Before()| == |t.rec.prologue| + |t.x.body|
  {
    hide BodyOf;
  }

  /** An attempt to exchange a request, unfolded. */
  lemma {:induction false} Unfolded(t: Turn, s: Script)
    requires Ended(t, s) && t.rec.kind.Some? && !t.x.q.isConnect
    ensures t.v == VerdictOf(t.RequestEnd(s), s, t.held, t.Again()) && (t.Again() <==> t.x.tries < 4 || OwnDirect(t))
    ensures t.slot == SlotAfter(t.x.slot, t.x.tries > 1, t.SendEnd(s), s, t.RequestEnd(s))
    ensures t.stock.blocked <==>
              t.was.blocked || (t.RequestEnd(s) == Retry && RetryMarks(t.SendEnd(s), OwnDirect(t), s)) ||
              (t.v == TryAgain && t.x.tries == 4)
    ensures t.RequestEnd(s) == if t.SendEnd(s) != Nil then t.SendEnd(s)
                               else AnswerError(s.answer, OwnDirect(t) && LooksBlocked(t.x.site.parentEmpty, s.answer),
                                                t.x.q.webSocket, t.x.tries > 1)
  {
    hide Delivered, HeldBody, BodyOf, PrologueOf, SendError, AnswerError, VerdictOf, SlotAfter, RetryMarks, Placed;
  }

  /** A server that does not answer: the end of its stream is always a retry; a timeout, a reset and the configured status
      are one over a direct connection to such a site when there is a parent, and then the site is blocked; anything else is
      a page, and so are those otherwise. */
  lemma {:induction false} NoAnswerDecides(t: Turn, s: Script, e: NetError)
    requires Ended(t, s) && t.rec.kind.Some? && !t.x.q.isConnect && FullySent(t, s) && s.answer == NoAnswer(e)
    ensures var suspicious := OwnDirect(t) && !t.x.site.parentEmpty && e in {Timeout, ConnReset, HttpCode};
            var retry := e == EOF || suspicious;
            t.v == (if !retry then NextRequest else if Repeats(t) then TryAgain else Close) &&
            (t.stock.blocked <==> t.was.blocked || suspicious || (retry && t.held && t.x.tries == 4 && OwnDirect(t))) &&
            (t.slot <==> t.x.slot || (t.x.tries <= 1 && s.admitted))
  {
    hide Ended;
    SentMeans(t, s);
    TriesBounded(t, s);
    Unfolded(t, s);
  }

  lemma {:induction false} TriesBounded(t: Turn, s: Script)
    requires Ended(t, s)
    ensures t.rec.kind.Some? && t.v == TryAgain ==> t.held
  {
    hide Exchanged, ConnectSent, PrologueOf, Placed, ConnectError, RequestError;
  }

  /** The same for a direct connection to a site with its own entry, when the buffer is held. */
  lemma {:induction false} SilentServerDecides(t: Turn, s: Script, e: NetError)
    requires Ended(t, s) && t.rec.kind == Some(Direct) && t.x.site.kind == Own && !t.x.q.isConnect && t.held
    requires FullySent(t, s) && s.answer == NoAnswer(e) && !t.was.blocked
    ensures t.v == TryAgain <==> e == EOF || (!t.x.site.parentEmpty && e in {Timeout, ConnReset, HttpCode})
    ensures t.x.tries < 4 ==>
              (t.stock.blocked <==> !t.x.site.parentEmpty && e in {Timeout, ConnReset, HttpCode})
  {
    hide Ended, FullySent;
    NoAnswerDecides(t, s, e);
  }

  /** A response: complete, it leads to the next request if the client keeps the connection; anything that breaks it closes
      the connection; an upgrade ends in a tunnel, or crashes on a retry. No response blocks the site. */
  lemma {:induction false} AnswerDecides(t: Turn, s: Script)
    requires Ended(t, s) && t.rec.kind.Some? && !t.x.q.isConnect && FullySent(t, s) && s.answer.Answered?
    ensures var Answered(tooLarge, headerWritten, switching, body) := s.answer;
            var forwarded := headerWritten && !(switching && t.x.q.webSocket);
            t.v == (if !headerWritten then Close
                    else if !forwarded then if t.x.tries > 1 then Crashed else Close
                    else if body.Endless? then Hangs
                    else if body.Complete? && s.keepAlive then NextRequest
                    else Close) &&
            t.stock.blocked == t.was.blocked &&
            (t.slot <==> (t.x.slot || (t.x.tries <= 1 && s.admitted)) && !tooLarge && !(forwarded && body.Complete?))
  {
    hide Ended;
    SentMeans(t, s);
    Unfolded(t, s);
  }

  /** A request that is not sent in full: a header that is not accepted is a retry, and so is a write error inside the body
      that comes from the network; a reset blocks the site. Any other end of the body closes the connection, or never
      comes. */
  lemma {:induction false} SendingDecides(t: Turn, s: Script)
    requires Ended(t, s) && t.rec.kind.Some? && !t.x.q.isConnect && !FullySent(t, s)
    ensures var header := |t.rec.prologue| + |t.x.body| > s.limit;
            var broken := |t.rec.prologue| + |t.x.body| + |t.x.Plan().wire| > s.limit;
            var retry := header || (broken && s.writeError.Some?);
            t.v == (if retry then if Repeats(t) then TryAgain else Close
                    else if !broken && t.x.Plan().result == Coding.Spins then Hangs
                    else Close) &&
            (t.stock.blocked <==>
              t.was.blocked || (retry && OwnDirect(t) && s.writeError == Some(ConnReset)) ||
              (retry && t.held && t.x.tries == 4 && OwnDirect(t))) &&
            (t.slot <==> t.x.slot || (t.x.tries <= 1 && s.admitted))
  {
    hide Ended, AnswerError, BodyOf;
    SentMeans(t, s);
    Unfolded(t, s);
  }

  /** A tunnel: it is retried if the header was not accepted by a parent, or if a direct connection to such a site ends, with
      a parent configured and before the server said anything, in a timeout, a reset or the configured status; and only in
      the second case is the site blocked. The end of the stream is no retry. */
  lemma {:induction false} TunnelDecides(t: Turn, s: Script)
    requires Ended(t, s) && t.rec.kind.Some? && t.x.q.isConnect
    ensures var viaHttp := t.rec.kind == Some(HttpParent) || t.rec.kind == Some(CowParent);
            var header := viaHttp && |t.rec.prologue| + |t.x.body| > s.limit;
            var told := viaHttp || t.x.tries > 1 || s.tunnel.established;
            var silent := forall i :: 0 <= i < |s.tunnel.steps| ==> s.tunnel.steps[i].FromClient?;
            var suspicious := told && OwnDirect(t) && !t.x.site.parentEmpty && silent &&
                              s.tunnel.end in {Timeout, ConnReset, HttpCode};
            t.v == (if (header || suspicious) && Repeats(t) then TryAgain else Close) &&
            (t.stock.blocked <==>
              t.was.blocked || suspicious || (header && t.held && t.x.tries == 4 && OwnDirect(t))) &&
            t.slot == t.x.slot && t.rest == t.x.stream
  {
    hide ConnectSent, PrologueOf, Placed, GivenUp;
    assert |t.Before()| == |t.rec.prologue| + |t.x.body|;
    assert ServerSpeaks(s.tunnel) <==> !forall i :: 0 <= i < |s.tunnel.steps| ==> s.tunnel.steps[i].FromClient?;
  }

  /** Without a connection: a page, and the next request behind what looks like a body; a CONNECT is closed. */
  lemma {:induction false} PageDecides(t: Turn, s: Script)
    requires Ended(t, s) && t.rec.kind.None?
    ensures t.v == if t.x.q.isConnect then Close else if t.x.Whole().result == Coding.Spins then Hangs else NextRequest
    ensures t.rest == if t.x.q.isConnect then t.x.stream else t.x.Whole().rest
    ensures t.stock == t.was && t.slot == t.x.slot && !(IsParent(s.parent) && s.direct)
  {
    hide BodyOf, Placed, GivenUp, IsParent;
  }

  /** A buffer is given up at 16384 bytes, and not before. */
  lemma {:induction false} GivenUpMeans(t: Turn, s: Script)
    requires Ended(t, s) && |t.x.q.line| + |t.x.q.gen| + |t.x.q.fields| + |t.body| < 16384
    ensures t.held
  {
    hide Used, Skipped, Placed, Noted;
  }

  /** The way that is taken when nobody else touches the site and nothing comes from the pool: everything goes through a
      parent if so configured; a site that is listed or known as blocked, or has been learnt to be, goes to a parent if there
      is one; any other directly. Only when that cannot be reached is the other one taken, except that a blocked site is
      never reached directly, nor a direct one through a parent. A site that could only be reached through a parent is
      taken for blocked from then on. */
  lemma {:induction false} RouteDecides(t: Turn, s: Script)
    requires Ended(t, s) && s.others == Nothing && (t.x.q.isConnect || (!s.idle && s.shared == None))
    requires t.x.site.parentEmpty ==> t.x.site.kind == AlwaysDirect && !t.x.stock.blocked
    requires t.x.stock.blocked ==> t.x.site.kind == Own
    ensures var parent := s.parent.Some? && s.parent != Some(Direct);
            var Site(kind, parentEmpty, alwaysProxy) := t.x.site;
            var asBlocked := kind == AlwaysBlocked || t.x.stock.blocked || (kind == Own && s.learnt);
            t.rec.kind ==
              if alwaysProxy then if parent then s.parent else None
              else if asBlocked && !parentEmpty then
                if parent then s.parent else if s.direct && kind == Own && !t.x.stock.blocked then Some(Direct) else None
              else if s.direct then Some(Direct)
              else if parent && kind == Own then s.parent
              else None
    ensures var parent := s.parent.Some? && s.parent != Some(Direct);
            var Site(kind, parentEmpty, alwaysProxy) := t.x.site;
            var asBlocked := kind == AlwaysBlocked || t.x.stock.blocked || (kind == Own && s.learnt);
            t.was == t.x.stock.(blocked := t.x.stock.blocked ||
                                           (!alwaysProxy && !asBlocked && !s.direct && parent && kind == Own))
  {
    hide Concluded;
  }

  /** An idle direct connection is taken first, and a shared one before a new one. */
  lemma {:induction false} PoolDecides(t: Turn, s: Script)
    requires Ended(t, s) && s.others == Nothing && !t.x.q.isConnect
    ensures s.idle && t.x.stock.pooled > 0 ==> t.rec.kind == Some(Direct) && t.was.pooled == t.x.stock.pooled - 1
    ensures !(s.idle && t.x.stock.pooled > 0) ==> t.was.pooled == t.x.stock.pooled
    ensures !(s.idle && t.x.stock.pooled > 0) && IsParent(s.shared) ==> t.rec.kind == s.shared
  {
    hide Concluded;
  }

  // ---------------------------------------------------------------- what a server is sent

  /** The header: a server gets the request line without the host; an HTTP parent gets the client's own, and behind it the
      credentials for that parent; a cow parent gets only the line. */
  lemma {:induction false} HeaderDecides(t: Turn, s: Script)
    requires Ended(t, s) && t.rec.kind.Some?
    ensures t.rec.prologue == match t.rec.kind.value
                              case Direct => t.x.q.gen + t.x.q.fields
                              case Socks => t.x.q.gen + t.x.q.fields
                              case HttpParent => t.x.q.line + s.auth + t.x.q.fields
                              case CowParent => t.x.q.line + t.x.q.fields
  {
    hide ConnectSent, Exchanged, Placed, Noted, GivenUp;
    assert t.x.q.line + [] == t.x.q.line;
  }

  /** Behind the header comes what is kept of the body; and on a first try what there is to read: nothing without a body,
      a chunked one as it is relayed, and otherwise as many bytes as announced. */
  lemma {:induction false} BytesDecide(t: Turn, s: Script)
    requires Ended(t, s) && t.rec.kind.Some? && !t.x.q.isConnect && FullySent(t, s)
    ensures var Facts(_, _, contLen, chunking, _, _, _) := t.x.q;
            var start := t.rec.prologue + t.x.body;
            if t.x.tries > 1 || (!chunking && contLen <= 0) then t.rec.sent == start && t.rest == t.x.stream
            else if chunking then
              var r := Coding.Relayed(t.x.stream, t.x.feed.bufSize);
              t.rec.sent == start + r.wire && t.rest == r.rest
            else if contLen <= |t.x.stream| then
              t.rec.sent == start + t.x.stream[..contLen] && t.rest == t.x.stream[contLen..]
            else t.rec.sent == start + t.x.stream && t.rest == []
    ensures |t.rec.sent| <= |t.rec.out| && t.rec.out[..|t.rec.sent|] == t.rec.sent
  {
    hide Placed, Noted, GivenUp, AnswerError, SlotAfter, VerdictOf;
    SentMeans(t, s);
    var start := t.rec.prologue + t.x.body;
    assert start + [] == start && t.x.stream[..|t.x.stream|] == t.x.stream;
  }

  /** A tunnel that is accepted in full: a parent gets the header and the kept bytes; on a retry the kept bytes are the
      first that go through the tunnel; then comes all that the client sends, and also what it sends until it is told of
      a retry. */
  lemma {:induction false} TunnelBytesDecide(t: Turn, s: Script)
    requires Ended(t, s) && t.rec.kind.Some? && t.x.q.isConnect
    ensures var viaHttp := t.rec.kind == Some(HttpParent) || t.rec.kind == Some(CowParent);
            var told := viaHttp || t.x.tries > 1 || s.tunnel.established;
            var silent := forall i :: 0 <= i < |s.tunnel.steps| ==> s.tunnel.steps[i].FromClient?;
            var suspicious := OwnDirect(t) && !t.x.site.parentEmpty && silent && s.tunnel.end in {Timeout, ConnReset, HttpCode};
            var opening := (if viaHttp then t.rec.prologue + t.x.body else []) + if t.x.tries > 1 then t.x.body else [];
            var bytes := ClientBytes(s.tunnel.steps) + if suspicious then Concat(s.tunnel.late) else [];
            told && (viaHttp ==> |t.rec.prologue| + |t.x.body| <= s.limit) && |opening| + |bytes| <= s.limit ==>
              t.rec.out == opening + bytes && t.body == t.x.body + bytes
  {
    hide PrologueOf, Placed, GivenUp, Noted;
    assert |t.Before()| == |t.rec.prologue| + |t.x.body|;
    assert ServerSpeaks(s.tunnel) <==> !forall i :: 0 <= i < |s.tunnel.steps| ==> s.tunnel.steps[i].FromClient?;
  }

  lemma {:induction false} ClientBytesAre(steps: seq<TunnelStep>, p: Bytes)
    ensures ClientBytes([]) == [] && ClientBytes(steps + [FromClient(p)]) == ClientBytes(steps) + p
    ensures ClientBytes(steps + [FromServer]) == ClientBytes(steps)
  {
    assert (steps + [FromClient(p)])[..|steps|] == steps && (steps + [FromServer])[..|steps|] == steps;
    assert ClientBytes(steps) + [] == ClientBytes(steps);
  }

  lemma {:induction false} ConcatIs(pieces: seq<Bytes>, p: Bytes)
    ensures Concat([]) == [] && Concat(pieces + [p]) == Concat(pieces) + p
  {
    assert (pieces + [p])[..|pieces|] == pieces;
  }
}
