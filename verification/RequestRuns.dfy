/** proxy.go: what holds of every run of the loop that tries and retries a request. */
module RequestRuns {
  import opened Wire
  import opened RequestTrace
  import opened RequestLoop
  import Coding = ChunkedCoding
  import Body = ChunkedBody

  /** The first try that attempt `i` repeats, or attempt `i` itself. */
  function FirstOf(i: nat): (k: nat)
    ensures k <= i < k + MAX_TRIES && k % MAX_TRIES == 0
  {
    i - i % MAX_TRIES
  }

  /** A retry starts from what the last first try kept and left. */
  lemma {:induction false} WithinEpoch(turns: seq<Turn>, env: nat -> Script, start: Situation, i: nat)
    requires RunOk(turns, env, start) && i < |turns| && i % MAX_TRIES != 0 && !start.q.isConnect
    ensures var f := turns[FirstOf(i)];
            turns[i].x.body == f.Kept(env(FirstOf(i))) && turns[i].x.stream == f.rest && f.rec.kind.Some? &&
            !f.x.IsRetry() && turns[i].x.IsRetry() && f.v == TryAgain
  {
    hide Ended;
    var t := turns[i - 1];
    assert TurnOk(turns, i, env, start) && TurnOk(turns, i - 1, env, start);
    RetryMeans(t, env(i - 1));
    if (i - 1) % MAX_TRIES != 0 { WithinEpoch(turns, env, start, i - 1); }
  }

  /** Every server that is asked and accepts as much is sent its header and the body kept by the last first try, once. */
  lemma {:induction false} ServedOnce(turns: seq<Turn>, env: nat -> Script, start: Situation, i: nat)
    requires RunOk(turns, env, start) && i < |turns| && !start.q.isConnect && turns[i].rec.kind.Some?
    ensures var kept := turns[FirstOf(i)].Kept(env(FirstOf(i)));
            |turns[i].rec.prologue| + |kept| <= env(i).limit ==>
              turns[i].rec.sent == turns[i].rec.prologue + kept && Extends(turns[i].rec.sent, turns[i].rec.out)
  {
    hide Delivered, RequestError, SlotAfter, SendError, BodyOf, PrologueOf, VerdictOf, Extends, HeldBody, PartRead, PartLeft;
    var t, s := turns[i], env(i);
    assert TurnOk(turns, i, env, start);
    if i % MAX_TRIES == 0 {
      FirstAttempt(t, s);
      if |t.rec.prologue| + |t.Kept(s)| <= s.limit {
        assert t.rec.prologue + t.x.body + t.Kept(s)[|t.x.body|..] == t.rec.prologue + t.Kept(s);
      }
    } else {
      WithinEpoch(turns, env, start, i);
      RetryAttempt(t, s);
    }
  }

  /** After a reset the next attempt is a first try again: it starts from what the one before the retries kept and left. */
  lemma {:induction false} AcrossReset(turns: seq<Turn>, env: nat -> Script, start: Situation, i: nat)
    requires RunOk(turns, env, start) && 0 < i < |turns| && i % MAX_TRIES == 0 && !start.q.isConnect
    ensures var f := turns[i - MAX_TRIES];
            turns[i].x.body == f.Kept(env(i - MAX_TRIES)) && turns[i].x.stream == f.rest && f.rec.kind.Some? &&
            !f.x.IsRetry() && !turns[i].x.IsRetry() && f.v == TryAgain
    ensures turns[i - 1].rec.kind == Some(Direct) && start.site.kind == Own
  {
    hide Ended;
    var t := turns[i - 1];
    assert TurnOk(turns, i, env, start) && TurnOk(turns, i - 1, env, start);
    RetryMeans(t, env(i - 1));
    FollowedExactly(t, env(i - 1));
    WithinEpoch(turns, env, start, i - 1);
  }

  /** A body with a length: whatever is tried, kept body and unread stream make up the client's stream. */
  lemma {:induction false} StreamConserved(turns: seq<Turn>, env: nat -> Script, start: Situation, i: nat)
    requires RunOk(turns, env, start) && i < |turns| && !start.q.isConnect && Sized(start.q)
    ensures turns[i].x.body + turns[i].x.stream == start.body + start.stream
    ensures turns[i].rec.kind.Some? && !turns[i].x.IsRetry() ==>
              turns[i].Kept(env(i)) + turns[i].rest == start.body + start.stream
  {
    hide Ended, PartRead, BodyOf;
    var t, s := turns[i], env(i);
    assert TurnOk(turns, i, env, start);
    if i > 0 {
      StreamConserved(turns, env, start, i - 1);
      var p := turns[i - 1];
      assert TurnOk(turns, i - 1, env, start);
      RetryMeans(p, env(i - 1));
    }
    if t.rec.kind.Some? && !t.x.IsRetry() {
      FirstAttempt(t, s);
      SplitAgain(t.x.body, t.x.stream, t.Kept(s), t.rest);
    }
  }

  lemma {:induction false} SplitAgain(body: Bytes, stream: Bytes, kept: Bytes, rest: Bytes)
    requires body <= kept
    requires var part := kept[|body|..]; |part| <= |stream| && part == stream[..|part|] && rest == stream[|part|..]
    ensures kept + rest == body + stream
  {
    var part := kept[|body|..];
    assert kept == body + part && stream == part + rest;
  }

  /** What the first attempt after a reset has sent when its connection accepts all of it: the kept body, and then as much
      again as a body takes from what is left. */
  lemma {:induction false} ResetSendsMore(turns: seq<Turn>, env: nat -> Script, start: Situation, i: nat)
    requires RunOk(turns, env, start) && 0 < i < |turns| && i % MAX_TRIES == 0 && !start.q.isConnect
    requires var t := turns[i];
             t.rec.kind.Some? && |t.Before()| + |t.x.Whole().wire| <= env(i).limit
    ensures var t := turns[i];
            t.Kept(env(i)) == t.x.body + BodyOf(start.q, start.feed, t.x.stream).wire &&
            t.rec.sent == t.rec.prologue + t.Kept(env(i))
  {
    hide Ended, PartLeft, BodyOf;
    var t, s := turns[i], env(i);
    assert TurnOk(turns, i, env, start);
    FirstAttempt(t, s);
    assert t.rec.prologue + t.x.body + t.Kept(s)[|t.x.body|..] == t.rec.prologue + t.Kept(s);
  }

  /** That is the client's body, once, if nothing of it had been read; if all of it had, if and only if what follows does
      not look like a body; and for a body with a length if and only if nothing of it had been read or the client's stream
      ends with it. */
  lemma {:induction false} ResetSendsOnce(turns: seq<Turn>, env: nat -> Script, start: Situation, i: nat)
    requires RunOk(turns, env, start) && 0 < i < |turns| && i % MAX_TRIES == 0 && !start.q.isConnect && start.body == []
    requires var t := turns[i];
             t.rec.kind.Some? && |t.Before()| + |t.x.Whole().wire| <= env(i).limit
    ensures var t, whole := turns[i], start.Whole();
            var once := t.Kept(env(i)) == whole.wire;
            (Sized(start.q) ==> (once <==> t.x.body == [] || |start.stream| <= start.q.contLen)) &&
            (!start.q.HasBody() ==> once) &&
            (t.x.body == [] ==> once) &&
            (t.x.body == whole.wire ==> (once <==> t.x.Whole().wire == []))
  {
    hide Ended, BodyOf;
    var t := turns[i];
    assert TurnOk(turns, i, env, start);
    ResetSendsMore(turns, env, start, i);
    BodyShape(start.q, start.feed, start.stream);
    BodyShape(start.q, start.feed, t.x.stream);
    if Sized(start.q) {
      StreamConserved(turns, env, start, i);
      TwiceOrOnce(start.stream, t.x.body, t.x.stream, start.q.contLen);
    } else if !start.q.HasBody() {
      NoBodyKept(turns, env, start, i);
    }
    NothingRead(turns, env, start, i);
    NothingAdded(t.x.body, t.x.Whole().wire);
  }

  lemma {:induction false} NothingAdded(a: Bytes, b: Bytes)
    ensures a + b == a <==> b == []
    ensures a == [] ==> a + b == b
  {
    assert |a + b| == |a| + |b|;
  }

  /** As long as nothing is kept, nothing has been read. */
  lemma {:induction false} NothingRead(turns: seq<Turn>, env: nat -> Script, start: Situation, i: nat)
    requires RunOk(turns, env, start) && i < |turns| && !start.q.isConnect && start.body == []
    ensures turns[i].x.body == [] ==> turns[i].x.stream == start.stream
  {
    hide Ended;
    assert TurnOk(turns, i, env, start);
    if i > 0 && turns[i].x.body == [] {
      var p := turns[i - 1];
      assert TurnOk(turns, i - 1, env, start);
      RetryMeans(p, env(i - 1));
      if !p.x.IsRetry() {
        FirstAttempt(p, env(i - 1));
        NothingTaken(p, env(i - 1));
      }
      NothingRead(turns, env, start, i - 1);
    }
  }

  lemma {:induction false} NothingTaken(t: Turn, s: Script)
    requires Ended(t, s) && t.v == TryAgain && !t.x.q.isConnect && !t.x.IsRetry() && t.Kept(s) == []
    ensures t.rest == t.x.stream
  {
    hide BodyOf, PrologueOf, SlotAfter, AnswerError, Extends;
    RetryMeans(t, s);
    BodyShape(t.x.q, t.x.feed, t.x.stream);
    if |t.Before()| <= s.limit && |t.Before()| + |t.x.Whole().wire| <= s.limit {
      assert t.rec.sent[|t.Before()|..] == t.x.Whole().wire;
    }
  }

  lemma {:induction false} TwiceOrOnce(stream: Bytes, body: Bytes, left: Bytes, n: nat)
    requires body + left == stream && n > 0
    ensures body + left[..Coding.Min(n, |left|)] == stream[..Coding.Min(n, |stream|)] <==> body == [] || |stream| <= n
  {
    var a, b := body + left[..Coding.Min(n, |left|)], stream[..Coding.Min(n, |stream|)];
    assert |a| == |body| + Coding.Min(n, |left|) && |b| == Coding.Min(n, |stream|);
    if body == [] { assert left == stream; }
    if |stream| <= n { assert a == stream && b == stream; }
  }

  lemma {:induction false} NoBodyKept(turns: seq<Turn>, env: nat -> Script, start: Situation, i: nat)
    requires RunOk(turns, env, start) && i < |turns| && !start.q.isConnect && !start.q.HasBody() && start.body == []
    ensures turns[i].x.body == [] && turns[i].x.Whole().wire == [] && start.Whole().wire == []
  {
    hide Ended;
    assert TurnOk(turns, i, env, start);
    if i > 0 {
      NoBodyKept(turns, env, start, i - 1);
      var p := turns[i - 1];
      assert TurnOk(turns, i - 1, env, start);
      RetryMeans(p, env(i - 1));
      if !p.x.IsRetry() { FirstAttempt(p, env(i - 1)); }
    }
  }

  /** Where the client's stream is after a run that goes on with the next request: behind what was read, and behind what
      looks like another body if the run ended with a page for want of a connection. */
  lemma {:induction false} StreamAfter(turns: seq<Turn>, env: nat -> Script, start: Situation)
    requires RunOk(turns, env, start) && turns != [] && !start.q.isConnect
    ensures var n := |turns| - 1;
            var t, f := turns[n], turns[FirstOf(n)];
            t.rest == if t.rec.kind.Some? then f.rest
                      else if n % MAX_TRIES == 0 then t.x.Whole().rest
                      else BodyOf(start.q, start.feed, f.rest).rest
  {
    hide Delivered, RequestError, SlotAfter, SendError, BodyOf, PrologueOf, VerdictOf, Extends, HeldBody;
    var n := |turns| - 1;
    var t := turns[n];
    assert TurnOk(turns, n, env, start);
    if n % MAX_TRIES != 0 {
      WithinEpoch(turns, env, start, n);
      if t.rec.kind.Some? { RetryAttempt(t, env(n)); }
    }
  }

  /** A body with a length: after a run of any kind the stream is at the next request if and only if, after a response,
      just the body has been read; and after a page for want of a connection, nothing of it had been read before the
      skipping, or the client's stream ends with it. */
  lemma {:induction false} SizedAligned(turns: seq<Turn>, env: nat -> Script, start: Situation)
    requires RunOk(turns, env, start) && turns != [] && !start.q.isConnect && Sized(start.q) && start.body == []
    ensures var n := |turns| - 1;
            var t := turns[n];
            t.rest == start.Whole().rest <==>
              if t.rec.kind.Some? then turns[FirstOf(n)].Kept(env(FirstOf(n))) == start.Whole().wire
              else t.x.body == [] || |start.stream| <= start.q.contLen
  {
    hide Ended, BodyOf, HeldBody;
    var n := |turns| - 1;
    var t, k := turns[n], FirstOf(n);
    assert TurnOk(turns, n, env, start) && TurnOk(turns, k, env, start);
    StreamAfter(turns, env, start);
    StreamConserved(turns, env, start, n);
    BodyShape(start.q, start.feed, start.stream);
    if t.rec.kind.Some? {
      if n != k { WithinEpoch(turns, env, start, n); }
      StreamConserved(turns, env, start, k);
      RestOrWire(start.stream, turns[k].Kept(env(k)), t.rest, Coding.Min(start.q.contLen, |start.stream|));
    } else {
      if n != k { WithinEpoch(turns, env, start, n); }
      BodyShape(start.q, start.feed, t.x.stream);
      SkippedAgain(start.stream, t.x.body, t.x.stream, start.q.contLen);
    }
  }

  lemma {:induction false} RestOrWire(stream: Bytes, kept: Bytes, rest: Bytes, k: nat)
    requires kept + rest == stream && k <= |stream|
    ensures rest == stream[k..] <==> kept == stream[..k]
  {
    assert |kept| + |rest| == |stream| && kept == stream[..|kept|] && rest == stream[|kept|..];
  }

  /** Skipping a body of `n` bytes behind a part of it ends where it should only if the part is empty or nothing is left. */
  lemma {:induction false} SkippedAgain(stream: Bytes, body: Bytes, left: Bytes, n: nat)
    requires body + left == stream && n > 0
    ensures left[Coding.Min(n, |left|)..] == stream[Coding.Min(n, |stream|)..] <==> body == [] || |stream| <= n
  {
    var a, b := left[Coding.Min(n, |left|)..], stream[Coding.Min(n, |stream|)..];
    assert |a| == if |left| < n then 0 else |left| - n;
    assert |b| == if |stream| < n then 0 else |stream| - n;
    if body == [] { assert left == stream; }
  }

  /** A chunked body before any reset: after a response the stream is at the next request if and only if all of the body
      was kept; after a page for want of a connection always on a first try or when nothing was kept, and if and only if no
      size line follows when all of it was kept. */
  lemma {:induction false} ChunkedAligned(turns: seq<Turn>, env: nat -> Script, start: Situation)
    requires RunOk(turns, env, start) && 0 < |turns| <= MAX_TRIES && !start.q.isConnect && start.q.chunking && start.body == []
    requires start.Whole().result == Coding.Done
    ensures var t, whole, kept := turns[|turns| - 1], start.Whole(), turns[0].Kept(env(0));
            var aligned := t.rest == whole.rest;
            if t.rec.kind.Some? then aligned <==> kept == whole.wire
            else if |turns| == 1 || kept == [] then aligned
            else if kept == whole.wire then aligned <==> !ChunkFollows(whole.rest, start.feed.bufSize)
            else aligned <==> BodyOf(start.q, start.feed, turns[0].rest).rest == whole.rest
  {
    hide Ended, BodyOf, HeldBody, PartRead, Coding.LaxHead;
    var n := |turns| - 1;
    assert TurnOk(turns, 0, env, start) && TurnOk(turns, n, env, start);
    StreamAfter(turns, env, start);
    if n > 0 { WithinEpoch(turns, env, start, n); }
    if turns[0].rec.kind.Some? {
      FirstAttempt(turns[0], env(0));
      assert turns[0].Kept(env(0))[0..] == turns[0].Kept(env(0));
    }
    SkipsChunks(start.q, start.feed, start.Whole().rest);
  }

  /** The stream begins with a chunk that sendBodyChunked takes. */
  predicate ChunkFollows(stream: Bytes, bufSize: nat) {
    Coding.LaxHead(stream, bufSize).Copy? || Coding.LaxHead(stream, bufSize).Last?
  }

  lemma {:induction false} SkipsChunks(q: Facts, feed: Feed, stream: Bytes)
    requires q.chunking
    ensures BodyOf(q, feed, stream).rest == stream <==> !ChunkFollows(stream, feed.bufSize)
  {
    hide Coding.LaxHead;
    var h := Coding.LaxHead(stream, feed.bufSize);
    if h.Copy? {
      Body.RelayedConsumes(stream[h.k..], feed.bufSize);
      assert |BodyOf(q, feed, stream).rest| < |stream|;
    }
  }

  /** A run ends in a hang that keeps a slot if and only if an exchange got one at a first try over some connection, the
      last attempt never ends, and it is not behind a header that was too large. */
  lemma {:induction false} SlotLost(turns: seq<Turn>, env: nat -> Script, start: Situation)
    requires RunOk(turns, env, start) && turns != [] && !start.slot
    ensures var n := |turns| - 1;
            var t := turns[n];
            t.v == Hangs && t.slot <==>
              NeverEnds(t, env(n)) && Admitted(turns, env, |turns|) &&
              !(t.rec.kind.Some? && t.SendEnd(env(n)) == Nil && env(n).answer.Answered? && env(n).answer.tooLarge)
  {
    hide Ended, NeverEnds;
    var n := |turns| - 1;
    var t := turns[n];
    assert TurnOk(turns, n, env, start);
    HangMeans(t, env(n));
    SlotHeld(turns, env, start, n);
    if t.v == Hangs {
      HangKeepsSlot(t, env(n));
      NotConnect(t, env(n));
    }
  }

  lemma {:induction false} NotConnect(t: Turn, s: Script)
    requires NeverEnds(t, s)
    ensures !t.x.q.isConnect
  {
  }

  /** A first try among the first `n` attempts was made over a connection, and got a slot. */
  ghost predicate Admitted(turns: seq<Turn>, env: nat -> Script, n: nat)
    requires n <= |turns|
  {
    exists i :: 0 <= i < n && turns[i].rec.kind.Some? && !turns[i].x.IsRetry() && env(i).admitted
  }

  lemma {:induction false} SlotHeld(turns: seq<Turn>, env: nat -> Script, start: Situation, n: nat)
    requires RunOk(turns, env, start) && n < |turns| && !start.slot
    ensures !start.q.isConnect ==> (turns[n].x.slot <==> Admitted(turns, env, n))
  {
    hide Ended;
    assert TurnOk(turns, n, env, start);
    if n > 0 && !start.q.isConnect {
      SlotHeld(turns, env, start, n - 1);
      var p := turns[n - 1];
      assert TurnOk(turns, n - 1, env, start);
      SlotKept(p, env(n - 1));
    }
  }

  lemma {:induction false} SlotKept(t: Turn, s: Script)
    requires Ended(t, s) && t.v == TryAgain && !t.x.q.isConnect
    ensures t.slot <==> t.x.slot || (t.rec.kind.Some? && !t.x.IsRetry() && s.admitted)
  {
    hide Delivered, HeldBody, BodyOf, PrologueOf;
  }

  /** A run crashes if and only if its last attempt is a retry over a connection that accepts the request, and its answer
      upgrades. */
  lemma {:induction false} RunCrashes(turns: seq<Turn>, env: nat -> Script, start: Situation)
    requires RunOk(turns, env, start) && turns != []
    ensures var n := |turns| - 1;
            var t := turns[n];
            t.v == Crashed <==>
              !start.q.isConnect && n % MAX_TRIES != 0 && t.rec.kind.Some? && start.q.webSocket && Upgrades(env(n).answer) &&
              |t.rec.prologue| + |turns[FirstOf(n)].Kept(env(FirstOf(n)))| <= env(n).limit
  {
    hide Ended;
    var n := |turns| - 1;
    assert TurnOk(turns, n, env, start);
    CrashMeans(turns[n], env(n));
    if n % MAX_TRIES != 0 && !start.q.isConnect { WithinEpoch(turns, env, start, n); }
  }
}
