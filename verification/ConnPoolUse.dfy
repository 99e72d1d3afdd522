/** conn_pool.go: what Get, Put, CloseAll and the cleanup loops achieve. */
module ConnPoolUse {
  import opened ConnPool

  /** `step` can be made, and leads to `s'`. */
  ghost predicate Acts(s: State, step: Step, s': State) {
    Enabled(s, step) && After(s, step) == s'
  }

  /** Goroutine `t` stands at `p`. */
  predicate Stands(s: State, t: nat, p: Thread) {
    t in s.threads && s.threads[t] == p
  }

  function Standing(s: State, t: nat, p: Thread): (s': State) {
    s.(threads := s.threads[t := p])
  }

  /** The oldest connection of a channel is with goroutine `t`, which stands at `p`. */
  function Taken(s: State, t: nat, ch: Chan, p: Thread): (s': State)
    requires ch in s.chans && s.chans[ch] != []
  {
    Standing(s, t, p).(chans := s.chans[ch := s.chans[ch][1..]], place := s.place[s.chans[ch][0] := Held(t)])
  }

  function ClosedBy(s: State, t: nat, c: Conn, p: Thread): (s': State) {
    Standing(s, t, p).(place := s.place[c := Closed])
  }

  function SentBy(s: State, t: nat, ch: Chan, c: Conn, p: Thread): (s': State)
    requires ch in s.chans
  {
    Standing(s, t, p).(chans := s.chans[ch := s.chans[ch] + [c]], place := s.place[c := InChan(ch)])
  }

  // ---------------------------------------------------------------- Get

  /** Get looks in the channel of the host first, if there is one. */
  lemma {:induction false} GetLooks(s: State, t: nat, host: string, direct: bool)
    requires Stands(s, t, Free)
    ensures Acts(s, Client(t, GetCall(host, direct)),
                 Standing(s, t, if host in s.idle then GetFrom(host, direct, s.idle[host]) else GetMux(host, direct)))
  {
  }

  /** From a channel it takes the oldest connection, and returns it unless it looks stale; from an empty one nothing. */
  lemma {:induction false} GetReceives(s: State, t: nat, host: string, direct: bool, ch: Chan, stale: bool)
    requires Stands(s, t, GetFrom(host, direct, ch)) && ch in s.chans
    ensures s.chans[ch] == [] ==>
              Acts(s, Client(t, GetReceive(stale)), Standing(s, t, if ch == MUX then Free else GetMux(host, direct)))
    ensures s.chans[ch] != [] ==>
              var c := s.chans[ch][0];
              Acts(s, Client(t, GetReceive(stale)),
                   Taken(s, t, ch, if stale then GetStale(host, direct, ch, c) else Got(host, direct, c)))
  {
  }

  /** A stale one is closed, and the next one is looked at. */
  lemma {:induction false} GetCloses(s: State, t: nat, host: string, direct: bool, ch: Chan, c: Conn)
    requires Stands(s, t, GetStale(host, direct, ch, c))
    ensures Acts(s, Client(t, GetClose), ClosedBy(s, t, c, GetFrom(host, direct, ch)))
  {
  }

  /** The shared channel is for sites that are not direct, and for all if everything goes through parents. */
  lemma {:induction false} GetShares(s: State, t: nat, host: string, direct: bool)
    requires Stands(s, t, GetMux(host, direct))
    ensures Acts(s, Client(t, GetDecide), Standing(s, t, if !direct || s.alwaysProxy then GetFrom(host, direct, MUX) else Free))
  {
  }

  lemma {:induction false} GetReturns(s: State, t: nat, host: string, direct: bool, c: Conn)
    requires Stands(s, t, Got(host, direct, c))
    ensures Acts(s, Client(t, GetReturn), Standing(s, t, Using(c)))
  {
  }

  /** So a live connection to the host that has been idle longest is what Get returns. */
  lemma {:induction false} GetTakesOldest(s: State, t: nat, host: string, direct: bool)
    requires Reachable(s) && Stands(s, t, Free) && host in s.idle && s.idle[host] in s.chans && s.chans[s.idle[host]] != []
    ensures var ch := s.idle[host];
            var c := s.chans[ch][0];
            var s1 := Standing(s, t, GetFrom(host, direct, ch));
            var s2 := Taken(s1, t, ch, Got(host, direct, c));
            Acts(s, Client(t, GetCall(host, direct)), s1) && Acts(s1, Client(t, GetReceive(false)), s2) &&
            Acts(s2, Client(t, GetReturn), Standing(s2, t, Using(c)))
  {
    hide Reachable, Acts;
    var ch := s.idle[host];
    GetLooks(s, t, host, direct);
    var s1 := Standing(s, t, GetFrom(host, direct, ch));
    GetReceives(s1, t, host, direct, ch, false);
    GetReturns(Taken(s1, t, ch, Got(host, direct, s.chans[ch][0])), t, host, direct, s.chans[ch][0]);
  }

  /** And without any to the host, a shared one, where that is allowed. */
  lemma {:induction false} GetTakesShared(s: State, t: nat, host: string, direct: bool)
    requires Stands(s, t, Free) && host !in s.idle && MUX in s.chans
    ensures var s1 := Standing(s, t, GetMux(host, direct));
            Acts(s, Client(t, GetCall(host, direct)), s1) &&
            if direct && !s.alwaysProxy then Acts(s1, Client(t, GetDecide), Standing(s1, t, Free))
            else
              var s2 := Standing(s1, t, GetFrom(host, direct, MUX));
              Acts(s1, Client(t, GetDecide), s2) &&
              Acts(s2, Client(t, GetReceive(false)),
                   if s.chans[MUX] == [] then Standing(s2, t, Free) else Taken(s2, t, MUX, Got(host, direct, s.chans[MUX][0])))
  {
    hide Acts;
    GetLooks(s, t, host, direct);
    var s1 := Standing(s, t, GetMux(host, direct));
    GetShares(s1, t, host, direct);
    if !(direct && !s.alwaysProxy) { GetReceives(Standing(s1, t, GetFrom(host, direct, MUX)), t, host, direct, MUX, false); }
  }

  /** A Get for `h` that has gone on to the shared channel, or has a connection from there. */
  predicate PastHost(conns: map<Conn, Info>, p: Thread, h: string) {
    || (p.GetMux? && p.host == h)
    || (p.GetFrom? && p.host == h && p.ch == MUX)
    || (p.GetStale? && p.host == h && p.ch == MUX)
    || (p.Got? && p.host == h && p.c in conns && conns[p.c].mux)
  }

  /** Goroutine `t` asks for `h` when the map has no channel for it, or finds the channel of `h` empty. */
  predicate Misses(s: State, step: Step, t: nat, h: string) {
    && step.t == t && t in s.threads
    && match step
       case Client(_, GetCall(host, _)) => host == h && h !in s.idle
       case Client(_, GetReceive(_)) =>
         var p := s.threads[t];
         p.GetFrom? && p.host == h && p.ch != MUX && p.ch in s.hostOf && s.hostOf[p.ch] == h && p.ch in s.chans &&
         s.chans[p.ch] == []
       case _ => false
  }

  /** Only that leads a Get past the channel of its host. */
  lemma {:induction false} GoesPast(s: State, step: Step, t: nat, h: string)
    requires Inv(s) && Enabled(s, step) && t in s.threads && !PastHost(s.conns, s.threads[t], h)
    requires t in After(s, step).threads && PastHost(After(s, step).conns, After(s, step).threads[t], h)
    ensures Misses(s, step, t, h)
  {
    hide Inv, Handles, Routes, Cleans, MoveOf, Perform, Enabled, PastHost, Misses;
    InvKept(s, step);
    OnlyItMoves(s, step.t, MoveOf(s, step), t);
    if step.t != t {
      StillPast(s, step, t, h);
    } else {
      OwnStep(s, step, h);
    }
  }

  /** A step of another goroutine changes nothing about that. */
  lemma {:induction false} StillPast(s: State, step: Step, t: nat, h: string)
    requires Inv(s) && Enabled(s, step) && t in s.threads && Handles(s, step.t, MoveOf(s, step))
    ensures PastHost(After(s, step).conns, s.threads[t], h) ==> PastHost(s.conns, s.threads[t], h)
  {
    hide Inv, MoveOf, Enabled;
    ThreadFacts(s, t);
  }

  lemma {:induction false} OwnStep(s: State, step: Step, h: string)
    requires Inv(s) && Enabled(s, step) && step.t in s.threads && !PastHost(s.conns, s.threads[step.t], h)
    requires Handles(s, step.t, MoveOf(s, step))
    requires step.t in After(s, step).threads && PastHost(After(s, step).conns, After(s, step).threads[step.t], h)
    ensures Misses(s, step, step.t, h)
  {
    hide Inv, Handles, PastHost, Misses, ClientMove, PutMove, SweepMove, Snapshot, Perform, ClientEnabled, PutEnabled,
         SweepEnabled;
    var t, p, m := step.t, s.threads[step.t], MoveOf(s, step);
    OnlyItMoves(s, t, m, t);
    match step {
      case Spawn(_) => FreeIsNotPast(s, step, h);
      case Client(_, a) => OwnClientStep(s, step, h);
      case Put(_, a) => PutIsNotPast(s, p, a, After(s, step), h);
      case Sweeper(_, a) => SweepIsNotPast(s, p, a, After(s, step), h);
    }
  }

  lemma {:induction false} FreeIsNotPast(s: State, step: Step, h: string)
    requires Enabled(s, step) && step.Spawn?
    ensures step.t in After(s, step).threads && !PastHost(After(s, step).conns, After(s, step).threads[step.t], h)
  {
  }

  lemma {:induction false} PutIsNotPast(s: State, p: Thread, a: PutAction, s': State, h: string)
    requires PutEnabled(s, p, a)
    ensures !PastHost(s'.conns, PutMove(s, p, a).p, h)
  {
  }

  lemma {:induction false} SweepIsNotPast(s: State, p: Thread, a: SweepAction, s': State, h: string)
    requires SweepEnabled(s, p, a)
    ensures !PastHost(s'.conns, SweepMove(s, p, a).p, h)
  {
    hide Snapshot;
  }

  lemma {:induction false} OwnClientStep(s: State, step: Step, h: string)
    requires Inv(s) && Enabled(s, step) && step.Client? && step.t in s.threads && !PastHost(s.conns, s.threads[step.t], h)
    requires Handles(s, step.t, MoveOf(s, step))
    requires step.t in After(s, step).threads && PastHost(After(s, step).conns, After(s, step).threads[step.t], h)
    ensures Misses(s, step, step.t, h)
  {
    hide Inv, Handles, PastHost, ClientMove, Perform, ClientEnabled;
    var p, a := s.threads[step.t], step.ca;
    OnlyItMoves(s, step.t, MoveOf(s, step), step.t);
    ThreadFacts(s, step.t);
    if p.GetFrom? && p.ch in s.chans && s.chans[p.ch] != [] { HeadFits(s, p.ch); }
    if a.Dial? {
      DialIsNotPast(s, p, a, After(s, step).conns, h);
    } else {
      SameConns(s, step);
      ClientGoes(s, p, a, h);
    }
  }

  lemma {:induction false} DialIsNotPast(s: State, p: Thread, a: ClientAction, conns: map<Conn, Info>, h: string)
    requires ClientEnabled(s, p, a) && a.Dial?
    ensures !PastHost(conns, ClientMove(s, p, a).p, h)
  {
  }

  lemma {:induction false} SameConns(s: State, step: Step)
    requires Enabled(s, step) && step.Client? && !step.ca.Dial?
    ensures After(s, step).conns == s.conns
  {
    hide ClientMove, ClientEnabled;
    DialOpens(s, s.threads[step.t], step.ca);
  }

  lemma {:induction false} DialOpens(s: State, p: Thread, a: ClientAction)
    requires ClientEnabled(s, p, a) && !a.Dial?
    ensures !ClientMove(s, p, a).Open?
  {
  }

  lemma {:induction false} ClientGoes(s: State, p: Thread, a: ClientAction, h: string)
    requires ClientEnabled(s, p, a) && !a.Dial? && !PastHost(s.conns, p, h) && PastHost(s.conns, ClientMove(s, p, a).p, h)
    requires RouteOk(s.alwaysProxy, s.conns, s.hostOf, p) && s.hostOf.Keys == s.chans.Keys
    requires forall k :: k in s.idle ==> s.idle[k] != MUX
    requires p.GetFrom? && p.ch in s.chans && s.chans[p.ch] != [] ==> Fits(s.conns, s.hostOf, p.ch, s.chans[p.ch][0])
    ensures match a
            case GetCall(host, _) => host == h && h !in s.idle
            case GetReceive(_) =>
              p.GetFrom? && p.host == h && p.ch != MUX && p.ch in s.hostOf && s.hostOf[p.ch] == h && p.ch in s.chans &&
              s.chans[p.ch] == []
            case _ => false
  {
  }

  ghost predicate SomeMiss(s: State, steps: seq<Step>, t: nat, h: string)
    requires IsRun(s, steps)
    decreases |steps|
  {
    steps != [] && (Misses(s, steps[0], t, h) || SomeMiss(After(s, steps[0]), steps[1..], t, h))
  }

  /** In every run a Get is past the channel of its host only if that was missing, or found empty. */
  lemma {:induction false} PastOnlyIfMissed(s: State, steps: seq<Step>, t: nat, h: string)
    requires Inv(s) && IsRun(s, steps) && t in s.threads && !PastHost(s.conns, s.threads[t], h)
    requires t in End(s, steps).threads && PastHost(End(s, steps).conns, End(s, steps).threads[t], h)
    ensures SomeMiss(s, steps, t, h)
    decreases |steps|
  {
    hide Inv, Enabled, After, MoveOf, PastHost, Misses, Handles, Routes, Cleans, Perform;
    if steps != [] {
      var s' := After(s, steps[0]);
      InvKept(s, steps[0]);
      assert t in s'.threads by { Remains(s, steps[0], t); }
      if PastHost(s'.conns, s'.threads[t], h) { GoesPast(s, steps[0], t, h); }
      else { PastOnlyIfMissed(s', steps[1..], t, h); }
    }
  }

  lemma {:induction false} Remains(s: State, step: Step, t: nat)
    requires Inv(s) && Enabled(s, step) && t in s.threads
    ensures t in After(s, step).threads
  {
    hide Inv, Handles, Routes, Cleans, MoveOf, Perform, Enabled;
    InvKept(s, step);
    OnlyItMoves(s, step.t, MoveOf(s, step), t);
  }

  /** A Get ends without a connection only behind the host's channel: at a direct site when not everything goes through
      parents, or at an empty shared channel. */
  lemma {:induction false} EmptyHanded(s: State, step: Step)
    requires Inv(s) && Enabled(s, step) && step.t in s.threads
    requires var p := s.threads[step.t]; p.GetFrom? || p.GetMux? || p.GetStale? || p.Got?
    requires Stands(After(s, step), step.t, Free)
    ensures var p := s.threads[step.t];
            if p.GetMux? then p.direct && !s.alwaysProxy else p.GetFrom? && p.ch == MUX && s.chans[MUX] == []
  {
    hide Inv, Snapshot;
  }

  // ---------------------------------------------------------------- Put

  /** Put sends on the shared channel, or on that of the host, if there is one. */
  lemma {:induction false} PutLooks(s: State, t: nat, c: Conn)
    requires Stands(s, t, Using(c)) && c in s.conns
    ensures var Info(host, mux) := s.conns[c];
            Acts(s, Put(t, PutCall),
                 Standing(s, t, if mux then PutSend(c, MUX)
                                else if host in s.idle then PutSend(c, s.idle[host])
                                else PutMissing(c)))
  {
  }

  /** A connection is kept, as the youngest of its channel, exactly if that is not full; otherwise it is closed. */
  lemma {:induction false} PutKeeps(s: State, t: nat, c: Conn, ch: Chan)
    requires Stands(s, t, PutSend(c, ch)) && ch in s.chans
    ensures var full := |s.chans[ch]| >= if ch == MUX then 10 else 5;
            if !full then Acts(s, Put(t, PutTry), SentBy(s, t, ch, c, Free))
            else
              var s1 := Standing(s, t, PutFull(c));
              Acts(s, Put(t, PutTry), s1) && Acts(s1, Put(t, PutClose), ClosedBy(s1, t, c, Free))
  {
  }

  /** The state in which the host of a connection has got a channel. */
  function Created(s: State, t: nat, c: Conn, newCh: Chan): (s': State)
    requires c in s.conns
  {
    Standing(s, t, PutSpawn(c, newCh)).(
      chans := s.chans[newCh := []], hostOf := s.hostOf[newCh := s.conns[c].host],
      idle := s.idle[s.conns[c].host := newCh], cleaner := s.cleaner[newCh := t])
  }

  /** Without a channel for the host, one is created and put in the map; unless somebody else has done so in the
      meantime. */
  lemma {:induction false} PutCreates(s: State, t: nat, c: Conn, newCh: Chan)
    requires Stands(s, t, PutMissing(c)) && c in s.conns && newCh !in s.chans
    ensures var host := s.conns[c].host;
            Acts(s, Put(t, PutCreate(newCh)),
                 if host in s.idle then Standing(s, t, PutSend(c, s.idle[host])) else Created(s, t, c, newCh))
  {
  }

  /** And its cleanup loop is started. */
  lemma {:induction false} PutStarts(s: State, t: nat, c: Conn, ch: Chan, loop: nat)
    requires Stands(s, t, PutSpawn(c, ch)) && loop !in s.threads
    ensures Acts(s, Put(t, PutStart(loop)),
                 Standing(Standing(s, t, PutSend(c, ch)), loop, Asleep(ch)).(cleaner := s.cleaner[ch := loop]))
  {
  }

  // ---------------------------------------------------------------- cleaning up

  /** A round of a cleanup loop, or of CloseAll: the oldest connection is taken; if it looks stale, or all are to go, it is
      closed; otherwise it is put back behind the others. */
  lemma {:induction false} SweepRound(s: State, t: nat, ch: Chan, left: nat, force: bool, todo: seq<Chan>, stale: bool)
    requires Stands(s, t, Sweep(ch, left, force, todo)) && left > 0 && ch in s.chans && s.chans[ch] != []
    requires |s.chans[ch]| <= Capacity(ch)
    ensures var c, next := s.chans[ch][0], Sweep(ch, left - 1, force, todo);
            var s1 := Taken(s, t, ch, SweepTook(ch, left - 1, force, todo, c, stale));
            Acts(s, Sweeper(t, SweepReceive(stale)), s1) &&
            if force || stale then Acts(s1, Sweeper(t, SweepClose), ClosedBy(s1, t, c, next))
            else Acts(s1, Sweeper(t, SweepPutBack), SentBy(s1, t, ch, c, next))
  {
    hide Snapshot;
  }

  /** An empty channel is removed from the map, unless it is the shared one or has been replaced; the loop then waits and
      drains it. */
  lemma {:induction false} SweepRemoves(s: State, t: nat, ch: Chan, left: nat, force: bool, todo: seq<Chan>)
    requires Stands(s, t, Sweep(ch, left, force, todo)) && left > 0 && ch in s.chans && s.chans[ch] == [] && ch in s.hostOf
    ensures var host, s1 := s.hostOf[ch], Standing(s, t, SweepEmpty(ch, force, todo));
            Acts(s, Sweeper(t, SweepReceive(false)), s1) &&
            Acts(s1, Sweeper(t, SweepRemove),
                 Standing(s1, t, if force then CloseNext(todo) else LastWait(ch)).(
                   idle := if ch != MUX && host in s.idle && s.idle[host] == ch then s.idle - {host} else s.idle))
  {
    hide Snapshot;
  }

  /** A sweep has as many rounds as the channel has connections when it begins, and at least one. */
  lemma {:induction false} SweepBeginsAndEnds(s: State, t: nat, ch: Chan)
    requires ch in s.chans
    ensures Stands(s, t, Asleep(ch)) ==>
              Acts(s, Sweeper(t, Wake), Standing(s, t, Sweep(ch, if s.chans[ch] == [] then 1 else |s.chans[ch]|, false, [])))
    ensures Stands(s, t, Sweep(ch, 0, false, [])) ==> Acts(s, Sweeper(t, SweepReceive(false)), Standing(s, t, Asleep(ch)))
  {
    hide Snapshot;
  }

  /** CloseAll goes through the channels in the map and the shared one, in any order, as they were at its start, and sweeps
      each of them with force. */
  lemma {:induction false} CloseAllBegins(s: State, t: nat, todo: seq<Chan>)
    requires t in s.threads
    ensures Enabled(s, Sweeper(t, CloseAllCall(todo))) <==>
              s.threads[t] == Free && 0 in todo && (forall h :: h in s.idle ==> s.idle[h] in todo) &&
              forall ch :: ch in todo && ch != 0 ==> exists h :: h in s.idle && s.idle[h] == ch
    ensures Enabled(s, Sweeper(t, CloseAllCall(todo))) ==>
              After(s, Sweeper(t, CloseAllCall(todo))) == Standing(s, t, CloseNext(todo))
    ensures s.threads[t] == CloseNext([]) ==> Acts(s, Sweeper(t, CloseAllNext), Standing(s, t, Free))
    ensures s.threads[t] == CloseNext(todo) && todo != [] && todo[0] in s.chans ==>
              var n := if s.chans[todo[0]] == [] then 1 else |s.chans[todo[0]]|;
              Acts(s, Sweeper(t, CloseAllNext), Standing(s, t, Sweep(todo[0], n, true, todo[1..])))
  {
  }

  /** After the removal everything that is still put into the channel is closed, until it is found empty. */
  lemma {:induction false} Drains(s: State, t: nat, ch: Chan)
    requires Stands(s, t, Draining(ch)) && ch in s.chans
    ensures if s.chans[ch] == [] then Acts(s, Sweeper(t, DrainReceive), Standing(s, t, Ended(ch)))
            else
              var c := s.chans[ch][0];
              var s1 := Taken(s, t, ch, DrainTook(ch, c));
              Acts(s, Sweeper(t, DrainReceive), s1) && Acts(s1, Sweeper(t, DrainClose), ClosedBy(s1, t, c, Draining(ch)))
  {
    hide Snapshot;
  }

  /** The state in which all connections of a channel have been closed. */
  function Emptied(s: State, ch: Chan): (s': State)
    requires ch in s.chans
    decreases |s.chans[ch]|
  {
    if s.chans[ch] == [] then s
    else Emptied(s.(chans := s.chans[ch := s.chans[ch][1..]], place := s.place[s.chans[ch][0] := Closed]), ch)
  }

  lemma {:induction false} EmptiedMeans(s: State, ch: Chan)
    requires ch in s.chans
    ensures ch in Emptied(s, ch).chans && Emptied(s, ch).chans[ch] == []
    ensures forall i :: 0 <= i < |s.chans[ch]| ==>
              s.chans[ch][i] in Emptied(s, ch).place && Emptied(s, ch).place[s.chans[ch][i]] == Closed
    ensures forall c :: c in s.place && c !in s.chans[ch] ==> c in Emptied(s, ch).place && Emptied(s, ch).place[c] == s.place[c]
    ensures Emptied(s, ch).threads == s.threads && forall k :: k in s.chans && k != ch ==>
              k in Emptied(s, ch).chans && Emptied(s, ch).chans[k] == s.chans[k]
    ensures forall c :: c in s.place && s.place[c] == Closed ==> c in Emptied(s, ch).place && Emptied(s, ch).place[c] == Closed
    decreases |s.chans[ch]|
  {
    if s.chans[ch] != [] {
      var q := s.chans[ch];
      var s1 := s.(chans := s.chans[ch := q[1..]], place := s.place[q[0] := Closed]);
      EmptiedMeans(s1, ch);
      assert q == [q[0]] + q[1..];
    }
  }

  /** CloseAll, undisturbed, closes all that a channel holds, and goes on with the next one. */
  lemma {:induction false} CloseAllEmpties(s: State, t: nat, ch: Chan, todo: seq<Chan>) returns (steps: seq<Step>)
    requires ch in s.chans && |s.chans[ch]| <= Capacity(ch) && Stands(s, t, Sweep(ch, |s.chans[ch]|, true, todo))
    ensures IsRun(s, steps) && End(s, steps) == Standing(Emptied(s, ch), t, CloseNext(todo))
    decreases |s.chans[ch]|
  {
    hide Enabled, After, Acts, Taken, ClosedBy, Emptied;
    var q := s.chans[ch];
    if q == [] {
      EmptyAlready(s, ch);
      SweepOver(s, t, ch, todo);
      steps := [Sweeper(t, SweepReceive(false))];
      assert steps[1..] == [];
      OneStep(s, steps[0], Standing(s, t, CloseNext(todo)));
    } else {
      SweepRound(s, t, ch, |q|, true, todo, false);
      OneLess(s, t, ch, todo);
      var s1 := Taken(s, t, ch, SweepTook(ch, |q| - 1, true, todo, q[0], false));
      var s2 := ClosedBy(s1, t, q[0], Sweep(ch, |q| - 1, true, todo));
      var rest := CloseAllEmpties(s2, t, ch, todo);
      Reordered(s, t, ch, |q| - 1, todo);
      steps := [Sweeper(t, SweepReceive(false)), Sweeper(t, SweepClose)] + rest;
      assert steps[1..] == [Sweeper(t, SweepClose)] + rest && steps[1..][1..] == rest;
      OneStep(s, steps[0], s1);
      OneStep(s1, Sweeper(t, SweepClose), s2);
    }
  }

  lemma {:induction false} EmptyAlready(s: State, ch: Chan)
    requires ch in s.chans && s.chans[ch] == []
    ensures Emptied(s, ch) == s
  {
  }

  lemma {:induction false} OneLess(s: State, t: nat, ch: Chan, todo: seq<Chan>)
    requires ch in s.chans && s.chans[ch] != []
    ensures var q := s.chans[ch];
            var s1 := Taken(s, t, ch, SweepTook(ch, |q| - 1, true, todo, q[0], false));
            var s2 := ClosedBy(s1, t, q[0], Sweep(ch, |q| - 1, true, todo));
            ch in s2.chans && s2.chans[ch] == q[1..] && Stands(s2, t, Sweep(ch, |q| - 1, true, todo))
  {
  }

  lemma {:induction false} OneStep(s: State, step: Step, s': State)
    requires Acts(s, step, s')
    ensures Enabled(s, step) && After(s, step) == s'
  {
  }

  lemma {:induction false} SweepOver(s: State, t: nat, ch: Chan, todo: seq<Chan>)
    requires Stands(s, t, Sweep(ch, 0, true, todo)) && ch in s.chans
    ensures Acts(s, Sweeper(t, SweepReceive(false)), Standing(s, t, CloseNext(todo)))
  {
    hide Snapshot;
  }

  /** Where the goroutine stands does not matter for what it empties. */
  lemma {:induction false} Reordered(s: State, t: nat, ch: Chan, left: nat, todo: seq<Chan>)
    requires ch in s.chans && s.chans[ch] != [] && t in s.threads
    ensures var c := s.chans[ch][0];
            var s1 := Taken(s, t, ch, SweepTook(ch, left, true, todo, c, false));
            var s2 := ClosedBy(s1, t, c, Sweep(ch, left, true, todo));
            Standing(Emptied(s2, ch), t, CloseNext(todo)) == Standing(Emptied(s, ch), t, CloseNext(todo))
  {
    var c := s.chans[ch][0];
    var s1 := Taken(s, t, ch, SweepTook(ch, left, true, todo, c, false));
    var s2 := ClosedBy(s1, t, c, Sweep(ch, left, true, todo));
    var r := s.(chans := s.chans[ch := s.chans[ch][1..]], place := s.place[c := Closed]);
    assert s.place[c := Held(t)][c := Closed] == s.place[c := Closed];
    assert s2 == r.(threads := s2.threads);
    ThreadsDoNotMatter(r, ch, s2.threads);
    assert s2.threads[t := CloseNext(todo)] == s.threads[t := CloseNext(todo)];
    EmptiedMeans(r, ch);
  }

  lemma {:induction false} ThreadsDoNotMatter(s: State, ch: Chan, threads: map<nat, Thread>)
    requires ch in s.chans
    ensures Emptied(s.(threads := threads), ch) == Emptied(s, ch).(threads := threads)
    decreases |s.chans[ch]|
  {
    if s.chans[ch] != [] {
      ThreadsDoNotMatter(s.(chans := s.chans[ch := s.chans[ch][1..]], place := s.place[s.chans[ch][0] := Closed]), ch, threads);
    }
  }

  // ---------------------------------------------------------------- a run

  /** A connection that is put and then asked for: for every host, from the start of the program. */
  lemma {:induction false} PutThenGet(alwaysProxy: bool, host: string, direct: bool) returns (s: State)
    ensures Reachable(s) && Stands(s, 1, Got(host, direct, 0))
    ensures 0 in s.conns && s.conns[0] == Info(host, false)
  {
    hide Reaches, Acts;
    var put := LateAt(alwaysProxy, host, Asleep(1), map[][host := 1]);
    PutKeeps(put, 1, 0, 1);
    var idle := SentBy(put, 1, 1, 0, Free);
    GetLooks(idle, 1, host, direct);
    var from := Standing(idle, 1, GetFrom(host, direct, 1));
    GetReceives(from, 1, host, direct, 1, false);
    assert idle.chans[1] == [0];
    s := Taken(from, 1, 1, Got(host, direct, 0));
    ReachesItself(s);
    ActsTowards(from, Client(1, GetReceive(false)), s, s);
    ActsTowards(idle, Client(1, GetCall(host, direct)), from, s);
    ActsTowards(put, Put(1, PutTry), idle, s);
    LateCreates(alwaysProxy, host, s);
    LateLooksUp(alwaysProxy, host, s);
    LateDials(alwaysProxy, host, s);
  }

  lemma {:induction false} ActsTowards(s: State, step: Step, s': State, goal: State)
    requires Acts(s, step, s') && Reaches(s', goal)
    ensures Reaches(s, goal)
  {
    hide Reaches, Enabled, After;
    ReachesFurther(s, step, goal);
  }
}
