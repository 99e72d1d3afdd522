/** conn_pool.go: the pool of idle server connections, as a transition system. A step is one atomic action of
    one goroutine: a section under the pool's lock, one channel operation, closing one connection, or starting
    one goroutine. Clients that Get and Put, CloseAll, and the cleanup loops interleave freely. */
module ConnPool {

  type Conn = nat
  type Chan = nat

  /** The channel shared by all connections to HTTP and cow parents. */
  const MUX: Chan := 0

  const MAX_SERVER_CONN: nat := 5

  function Capacity(ch: Chan): (n: nat) {
    if ch == MUX then 2 * MAX_SERVER_CONN else MAX_SERVER_CONN
  }

  /** A server connection: the host it was made for, and whether it multiplexes over an HTTP or cow parent. */
  datatype Info = Info(host: string, mux: bool)

  /** Where a goroutine stands. `force` tells CloseAll (true) from a cleanup loop (false) inside
      closeServerConn; `todo` is what CloseAll still has to close. */
  datatype Thread =
    | Free
    | Using(c: Conn)                                            // a client owns a connection
    | GetFrom(host: string, direct: bool, ch: Chan)             // Get: about to receive from `ch`
    | GetMux(host: string, direct: bool)                        // Get: nothing for the host itself
    | GetStale(host: string, direct: bool, ch: Chan, c: Conn)   // Get: received a connection that may be closed
    | Got(host: string, direct: bool, c: Conn)                  // Get returned `c`
    | PutMissing(c: Conn)                                       // Put: the host has no channel
    | PutSpawn(c: Conn, ch: Chan)                               // Put: created `ch`, cleanup loop not started
    | PutSend(c: Conn, ch: Chan)                                // Put: about to send
    | PutFull(c: Conn)                                          // Put: the channel was full
    | CloseNext(todo: seq<Chan>)                                // CloseAll: between two channels
    | Sweep(ch: Chan, left: nat, force: bool, todo: seq<Chan>)  // closeServerConn: `left` rounds to go
    | SweepTook(ch: Chan, left: nat, force: bool, todo: seq<Chan>, c: Conn, stale: bool)
    | SweepEmpty(ch: Chan, force: bool, todo: seq<Chan>)        // closeServerConn: about to remove `ch`
    | Asleep(ch: Chan)                                          // cleanup loop: between two sweeps
    | LastWait(ch: Chan)                                        // cleanup loop: after removal
    | Draining(ch: Chan)
    | DrainTook(ch: Chan, c: Conn)
    | Ended(ch: Chan)

  datatype Place = InChan(ch: Chan) | Held(t: nat) | Closed

  /** `place` and `cleaner` record history: where each connection is, and which goroutine is in charge of
      cleaning each channel. No step depends on them. */
  datatype State = State(
    alwaysProxy: bool,
    conns: map<Conn, Info>,
    chans: map<Chan, seq<Conn>>,
    hostOf: map<Chan, string>,  // the host a channel was created for
    idle: map<string, Chan>,    // the pool's map
    threads: map<nat, Thread>,
    place: map<Conn, Place>,
    cleaner: map<Chan, nat>)

  /** An empty pool; goroutine 0 is the cleanup loop of the shared channel. */
  function Initial(alwaysProxy: bool): (s: State) {
    State(alwaysProxy, map[], map[MUX := []], map[MUX := "@muxConn"], map[], map[0 := Asleep(MUX)], map[],
          map[MUX := 0])
  }

  /** The effect of one atomic action of a goroutine, which then stands at `p`. */
  datatype Move =
    | Go(p: Thread)                              // nothing shared changes
    | Receive(ch: Chan, p: Thread)               // the oldest connection of `ch` is received
    | Send(ch: Chan, c: Conn, p: Thread)         // `c` is sent on `ch`
    | Close(c: Conn, p: Thread)                  // `c` is closed
    | Open(c: Conn, info: Info, p: Thread)       // a new connection
    | Create(ch: Chan, host: string, p: Thread)  // a new channel, put in the map
    | Fork(loop: nat, ch: Chan, p: Thread)       // the cleanup loop of `ch` starts as goroutine `loop`
    | Unmap(ch: Chan, p: Thread)                 // `ch` leaves the map, if the map still holds it

  function Remove(idle: map<string, Chan>, host: string, ch: Chan): (m: map<string, Chan>) {
    if ch != MUX && host in idle && idle[host] == ch then idle - {host} else idle
  }

  function Perform(s: State, t: nat, m: Move): (s': State)
    requires m.Receive? ==> m.ch in s.chans && s.chans[m.ch] != []
    requires m.Send? ==> m.ch in s.chans
    requires m.Unmap? ==> m.ch in s.hostOf
  {
    var s1 := s.(threads := s.threads[t := m.p]);
    match m
    case Go(_) => s1
    case Receive(ch, _) =>
      s1.(chans := s.chans[ch := s.chans[ch][1..]], place := s.place[s.chans[ch][0] := Held(t)])
    case Send(ch, c, _) => s1.(chans := s.chans[ch := s.chans[ch] + [c]], place := s.place[c := InChan(ch)])
    case Close(c, _) => s1.(place := s.place[c := Closed])
    case Open(c, info, _) => s1.(conns := s.conns[c := info], place := s.place[c := Held(t)])
    case Create(ch, host, _) =>
      s1.(chans := s.chans[ch := []], hostOf := s.hostOf[ch := host], idle := s.idle[host := ch],
          cleaner := s.cleaner[ch := t])
    case Fork(loop, ch, _) => s1.(threads := s1.threads[loop := Asleep(ch)], cleaner := s.cleaner[ch := loop])
    case Unmap(ch, _) => s1.(idle := Remove(s.idle, s.hostOf[ch], ch))
  }

  // ---------------------------------------------------------------- the program

  datatype ClientAction =
    | Dial(c: Conn, info: Info)
    | Drop
    | GetCall(host: string, direct: bool)
    | GetReceive(stale: bool)
    | GetClose
    | GetDecide
    | GetReturn

  predicate ClientEnabled(s: State, p: Thread, a: ClientAction) {
    match a
    case Dial(c, _) => p.Free? && c !in s.conns
    case Drop => p.Using?
    case GetCall(_, _) => p.Free?
    case GetReceive(_) => p.GetFrom? && p.ch in s.chans
    case GetClose => p.GetStale?
    case GetDecide => p.GetMux?
    case GetReturn => p.Got?
  }

  /** Get, getConnFromChan, and the client around them. */
  function ClientMove(s: State, p: Thread, a: ClientAction): (m: Move)
    requires ClientEnabled(s, p, a)
  {
    match a
    case Dial(c, info) => Open(c, info, Using(c))
    case Drop => Close(p.c, Free)
    case GetCall(host, direct) =>
      Go(if host in s.idle then GetFrom(host, direct, s.idle[host]) else GetMux(host, direct))
    case GetReceive(stale) =>
      if s.chans[p.ch] == [] then Go(if p.ch == MUX then Free else GetMux(p.host, p.direct))
      else
        var c := s.chans[p.ch][0];
        Receive(p.ch, if stale then GetStale(p.host, p.direct, p.ch, c) else Got(p.host, p.direct, c))
    case GetClose => Close(p.c, GetFrom(p.host, p.direct, p.ch))
    case GetDecide => Go(if p.direct && !s.alwaysProxy then Free else GetFrom(p.host, p.direct, MUX))
    case GetReturn => Go(Using(p.c))
  }

  datatype PutAction = PutCall | PutCreate(newCh: Chan) | PutStart(loop: nat) | PutTry | PutClose

  predicate PutEnabled(s: State, p: Thread, a: PutAction) {
    match a
    case PutCall => p.Using? && p.c in s.conns
    case PutCreate(newCh) => p.PutMissing? && p.c in s.conns && newCh !in s.chans
    case PutStart(loop) => p.PutSpawn? && loop !in s.threads
    case PutTry => p.PutSend? && p.ch in s.chans
    case PutClose => p.PutFull?
  }

  /** Put and putConnToChan. */
  function PutMove(s: State, p: Thread, a: PutAction): (m: Move)
    requires PutEnabled(s, p, a)
  {
    match a
    case PutCall =>
      var info := s.conns[p.c];
      Go(if info.mux then PutSend(p.c, MUX)
         else if info.host in s.idle then PutSend(p.c, s.idle[info.host])
         else PutMissing(p.c))
    case PutCreate(newCh) =>
      var host := s.conns[p.c].host;
      if host in s.idle then Go(PutSend(p.c, s.idle[host])) else Create(newCh, host, PutSpawn(p.c, newCh))
    case PutStart(loop) => Fork(loop, p.ch, PutSend(p.c, p.ch))
    case PutTry => if |s.chans[p.ch]| < Capacity(p.ch) then Send(p.ch, p.c, Free) else Go(PutFull(p.c))
    case PutClose => Close(p.c, Free)
  }

  datatype SweepAction =
    | CloseAllCall(todo: seq<Chan>)
    | CloseAllNext
    | Wake
    | SweepReceive(stale: bool)
    | SweepClose
    | SweepPutBack
    | SweepRemove
    | LastWake
    | DrainReceive
    | DrainClose

  /** What CloseAll collects under the read lock, in any order, and the shared channel. */
  ghost predicate Snapshot(s: State, todo: seq<Chan>) {
    forall ch :: ch in todo <==> ch == MUX || exists h :: h in s.idle && s.idle[h] == ch
  }

  ghost predicate SweepEnabled(s: State, p: Thread, a: SweepAction) {
    match a
    case CloseAllCall(todo) => p.Free? && Snapshot(s, todo)
    case CloseAllNext => p.CloseNext? && (p.todo == [] || p.todo[0] in s.chans)
    case Wake => p.Asleep? && p.ch in s.chans
    case SweepReceive(_) => p.Sweep? && p.ch in s.chans
    case SweepClose => p.SweepTook? && (p.force || p.stale)
    case SweepPutBack => p.SweepTook? && !p.force && !p.stale && p.ch in s.chans && |s.chans[p.ch]| < Capacity(p.ch)
    case SweepRemove => p.SweepEmpty? && p.ch in s.hostOf
    case LastWake => p.LastWait?
    case DrainReceive => p.Draining? && p.ch in s.chans
    case DrainClose => p.DrainTook?
  }

  function Rounds(conns: seq<Conn>): (n: nat) {
    if conns == [] then 1 else |conns|
  }

  /** CloseAll, closeServerConn and closeStaleServerConn. */
  function SweepMove(s: State, p: Thread, a: SweepAction): (m: Move)
    requires SweepEnabled(s, p, a)
  {
    match a
    case CloseAllCall(todo) => Go(CloseNext(todo))
    case CloseAllNext =>
      Go(if p.todo == [] then Free else Sweep(p.todo[0], Rounds(s.chans[p.todo[0]]), true, p.todo[1..]))
    case Wake => Go(Sweep(p.ch, Rounds(s.chans[p.ch]), false, []))
    case SweepReceive(stale) =>
      if p.left == 0 then Go(if p.force then CloseNext(p.todo) else Asleep(p.ch))
      else if s.chans[p.ch] == [] then Go(SweepEmpty(p.ch, p.force, p.todo))
      else Receive(p.ch, SweepTook(p.ch, p.left - 1, p.force, p.todo, s.chans[p.ch][0], stale))
    case SweepClose => Close(p.c, Sweep(p.ch, p.left, p.force, p.todo))
    case SweepPutBack => Send(p.ch, p.c, Sweep(p.ch, p.left, p.force, p.todo))
    case SweepRemove => Unmap(p.ch, if p.force then CloseNext(p.todo) else LastWait(p.ch))
    case LastWake => Go(Draining(p.ch))
    case DrainReceive =>
      if s.chans[p.ch] == [] then Go(Ended(p.ch)) else Receive(p.ch, DrainTook(p.ch, s.chans[p.ch][0]))
    case DrainClose => Close(p.c, Draining(p.ch))
  }

  datatype Step =
    | Spawn(t: nat)
    | Client(t: nat, ca: ClientAction)
    | Put(t: nat, pa: PutAction)
    | Sweeper(t: nat, sa: SweepAction)

  ghost predicate Enabled(s: State, step: Step) {
    if step.Spawn? then step.t !in s.threads
    else
      step.t in s.threads &&
      match step
      case Spawn(_) => false
      case Client(t, a) => ClientEnabled(s, s.threads[t], a)
      case Put(t, a) => PutEnabled(s, s.threads[t], a)
      case Sweeper(t, a) => SweepEnabled(s, s.threads[t], a)
  }

  ghost function MoveOf(s: State, step: Step): (m: Move)
    requires Enabled(s, step)
    ensures m.Receive? ==> m.ch in s.chans && s.chans[m.ch] != []
    ensures m.Send? ==> m.ch in s.chans
    ensures m.Unmap? ==> m.ch in s.hostOf
  {
    match step
    case Spawn(_) => Go(Free)
    case Client(t, a) => ClientMove(s, s.threads[t], a)
    case Put(t, a) => PutMove(s, s.threads[t], a)
    case Sweeper(t, a) => SweepMove(s, s.threads[t], a)
  }

  ghost function After(s: State, step: Step): (s': State)
    requires Enabled(s, step)
  {
    Perform(s, step.t, MoveOf(s, step))
  }

  // ---------------------------------------------------------------- one place for each connection

  /** The connection that a goroutine holds, as a set of at most one. */
  function HeldBy(p: Thread): (cs: set<Conn>) {
    if p.Using? || p.GetStale? || p.Got? || p.PutMissing? || p.PutSpawn? || p.PutSend? || p.PutFull?
       || p.SweepTook? || p.DrainTook?
    then {p.c} else {}
  }

  predicate PlaceOk(s: State, c: Conn)
    requires c in s.place
  {
    match s.place[c]
    case InChan(ch) => ch in s.chans && c in s.chans[ch]
    case Held(t) => t in s.threads && HeldBy(s.threads[t]) == {c}
    case Closed => true
  }

  predicate QueueOk(place: map<Conn, Place>, ch: Chan, q: seq<Conn>) {
    && |q| <= Capacity(ch)
    && (forall i :: 0 <= i < |q| ==> q[i] in place && place[q[i]] == InChan(ch))
    && (forall i, j :: 0 <= i < j < |q| ==> q[i] != q[j])
  }

  predicate HeldOk(place: map<Conn, Place>, t: nat, held: set<Conn>) {
    forall c :: c in held ==> c in place && place[c] == Held(t)
  }

  ghost predicate PlaceInv(s: State) {
    && (forall c :: c in s.place ==> PlaceOk(s, c))
    && (forall ch :: ch in s.chans ==> QueueOk(s.place, ch, s.chans[ch]))
    && (forall t :: t in s.threads ==> HeldOk(s.place, t, HeldBy(s.threads[t])))
  }

  /** The goroutine that makes a move holds, before and after, what the move says. */
  predicate Handles(s: State, t: nat, m: Move) {
    var held := if t in s.threads then HeldBy(s.threads[t]) else {};
    match m
    case Receive(ch, p) => ch in s.chans && s.chans[ch] != [] && held == {} && HeldBy(p) == {s.chans[ch][0]}
    case Send(ch, c, p) => ch in s.chans && |s.chans[ch]| < Capacity(ch) && held == {c} && HeldBy(p) == {}
    case Close(c, p) => held == {c} && HeldBy(p) == {}
    case Open(c, _, p) => c !in s.conns && held == {} && HeldBy(p) == {c}
    case Create(ch, _, p) => ch !in s.chans && HeldBy(p) == held
    case Fork(loop, _, p) => loop !in s.threads && loop != t && HeldBy(p) == held
    case Unmap(ch, p) => ch in s.hostOf && HeldBy(p) == held
    case Go(p) => HeldBy(p) == held
  }

  lemma {:induction false} QueueTail(place: map<Conn, Place>, ch: Chan, q: seq<Conn>, p: Place)
    requires QueueOk(place, ch, q) && q != [] && !p.InChan?
    ensures QueueOk(place[q[0] := p], ch, q[1..])
  {
  }

  lemma {:induction false} QueueElsewhere(place: map<Conn, Place>, ch: Chan, q: seq<Conn>, c: Conn, p: Place)
    requires QueueOk(place, ch, q)
    requires c in place ==> place[c] != InChan(ch)
    ensures QueueOk(place[c := p], ch, q)
  {
  }

  lemma {:induction false} QueueAppend(place: map<Conn, Place>, ch: Chan, q: seq<Conn>, c: Conn)
    requires QueueOk(place, ch, q) && |q| < Capacity(ch)
    requires c in place && !place[c].InChan?
    ensures QueueOk(place[c := InChan(ch)], ch, q + [c])
  {
  }

  lemma {:induction false} HeadPlace(s: State, ch: Chan)
    requires PlaceInv(s) && ch in s.chans && s.chans[ch] != []
    ensures s.chans[ch][0] in s.place && s.place[s.chans[ch][0]] == InChan(ch)
  {
    assert QueueOk(s.place, ch, s.chans[ch]);
  }

  lemma {:induction false} HeldPlace(s: State, t: nat, c: Conn)
    requires PlaceInv(s) && t in s.threads && c in HeldBy(s.threads[t])
    ensures c in s.place && s.place[c] == Held(t)
  {
    hide HeldBy;
    assert HeldOk(s.place, t, HeldBy(s.threads[t]));
  }

  /** The connection that a move concerns, or none. */
  predicate Concerns(s: State, m: Move, c: Conn)
    requires m.Receive? ==> m.ch in s.chans && s.chans[m.ch] != []
  {
    match m
    case Receive(ch, _) => c == s.chans[ch][0]
    case Send(_, x, _) => c == x
    case Close(x, _) => c == x
    case Open(x, _, _) => c == x
    case _ => false
  }

  /** Where a connection that a move concerns was before. */
  lemma {:induction false} WasAt(s: State, t: nat, m: Move, c: Conn)
    requires PlaceInv(s) && s.place.Keys == s.conns.Keys && Handles(s, t, m) && Concerns(s, m, c)
    ensures match m
            case Receive(ch, _) => c in s.place && s.place[c] == InChan(ch)
            case Open(_, _, _) => c !in s.place
            case _ => c in s.place && s.place[c] == Held(t)
  {
    hide HeldBy;
    match m
    case Receive(ch, _) => HeadPlace(s, ch);
    case Open(_, _, _) =>
    case _ => HeldPlace(s, t, c);
  }

  lemma {:induction false} PlacesKept(s: State, t: nat, m: Move, c: Conn)
    requires PlaceInv(s) && s.place.Keys == s.conns.Keys && Handles(s, t, m)
    requires c in Perform(s, t, m).place
    ensures PlaceOk(Perform(s, t, m), c)
  {
    hide HeldBy, QueueOk;
    var s' := Perform(s, t, m);
    if Concerns(s, m, c) {
      WasAt(s, t, m, c);
      if m.Send? {
        assert s'.chans[m.ch][|s.chans[m.ch]|] == c;
      }
    } else {
      assert PlaceOk(s, c);
      if m.Receive? {
        assert s.chans[m.ch] == [s.chans[m.ch][0]] + s.chans[m.ch][1..];
      }
    }
  }

  lemma {:induction false} QueuesKept(s: State, t: nat, m: Move, k: Chan)
    requires PlaceInv(s) && s.place.Keys == s.conns.Keys && Handles(s, t, m)
    requires k in Perform(s, t, m).chans
    ensures QueueOk(Perform(s, t, m).place, k, Perform(s, t, m).chans[k])
  {
    hide HeldBy, QueueOk;
    match m
    case Receive(ch, _) =>
      WasAt(s, t, m, s.chans[ch][0]);
      if k == ch { QueueTail(s.place, k, s.chans[k], Held(t)); }
      else { QueueElsewhere(s.place, k, s.chans[k], s.chans[ch][0], Held(t)); }
    case Send(ch, c, _) =>
      WasAt(s, t, m, c);
      if k == ch { QueueAppend(s.place, k, s.chans[k], c); }
      else { QueueElsewhere(s.place, k, s.chans[k], c, InChan(ch)); }
    case Close(c, _) => WasAt(s, t, m, c); QueueElsewhere(s.place, k, s.chans[k], c, Closed);
    case Open(c, _, _) => WasAt(s, t, m, c); QueueElsewhere(s.place, k, s.chans[k], c, Held(t));
    case Create(ch, _, _) => if k == ch { QueueEmpty(s.place, ch); }
    case _ =>
  }

  lemma {:induction false} QueueEmpty(place: map<Conn, Place>, ch: Chan)
    ensures QueueOk(place, ch, [])
  {
  }

  lemma {:induction false} HoldersKept(s: State, t: nat, m: Move, u: nat)
    requires PlaceInv(s) && s.place.Keys == s.conns.Keys && Handles(s, t, m)
    requires u in Perform(s, t, m).threads
    ensures HeldOk(Perform(s, t, m).place, u, HeldBy(Perform(s, t, m).threads[u]))
  {
    hide QueueOk, HeldBy;
    var s' := Perform(s, t, m);
    if u in s.threads {
      assert HeldOk(s.place, u, HeldBy(s.threads[u]));
    }
    if m.Fork? && u == m.loop {
      AsleepHoldsNothing(m.ch);
    }
    forall c | c in HeldBy(s'.threads[u]) ensures c in s'.place && s'.place[c] == Held(u) {
      if Concerns(s, m, c) {
        WasAt(s, t, m, c);
      }
    }
  }

  lemma {:induction false} AsleepHoldsNothing(ch: Chan)
    ensures HeldBy(Asleep(ch)) == {}
  {
  }

  /** Every connection has one place, and the other way round. */
  ghost predicate Placed(s: State) {
    PlaceInv(s) && s.place.Keys == s.conns.Keys
  }

  lemma {:induction false} PlacedByMove(s: State, t: nat, m: Move)
    requires Placed(s) && Handles(s, t, m)
    ensures Placed(Perform(s, t, m))
  {
    hide HeldBy, QueueOk, PlaceOk, HeldOk;
    var s' := Perform(s, t, m);
    forall c | c in s'.place ensures PlaceOk(s', c) { PlacesKept(s, t, m, c); }
    forall k | k in s'.chans ensures QueueOk(s'.place, k, s'.chans[k]) { QueuesKept(s, t, m, k); }
    forall u | u in s'.threads ensures HeldOk(s'.place, u, HeldBy(s'.threads[u])) { HoldersKept(s, t, m, u); }
    SamePlaces(s, t, m);
  }

  lemma {:induction false} SamePlaces(s: State, t: nat, m: Move)
    requires Placed(s) && Handles(s, t, m)
    ensures Perform(s, t, m).place.Keys == Perform(s, t, m).conns.Keys
  {
    hide HeldBy;
    match m
    case Receive(ch, _) => WasAt(s, t, m, s.chans[ch][0]);
    case Send(_, c, _) => WasAt(s, t, m, c);
    case Close(c, _) => WasAt(s, t, m, c);
    case _ =>
  }

  // ---------------------------------------------------------------- what the channels hold

  /** `c` may be sent on `ch`. */
  predicate Fits(conns: map<Conn, Info>, hostOf: map<Chan, string>, ch: Chan, c: Conn) {
    && c in conns && ch in hostOf
    && (if ch == MUX then conns[c].mux else !conns[c].mux && conns[c].host == hostOf[ch])
  }

  /** What Get may return for a host. */
  predicate Answers(alwaysProxy: bool, info: Info, host: string, direct: bool) {
    if info.mux then !direct || alwaysProxy else info.host == host
  }

  /** The channel that a goroutine has in hand is one it may use, and so is the connection. */
  predicate RouteOk(alwaysProxy: bool, conns: map<Conn, Info>, hostOf: map<Chan, string>, p: Thread) {
    match p
    case GetFrom(host, direct, ch) =>
      ch in hostOf && (if ch == MUX then !direct || alwaysProxy else hostOf[ch] == host)
    case GetStale(host, direct, ch, _) =>
      ch in hostOf && (if ch == MUX then !direct || alwaysProxy else hostOf[ch] == host)
    case Got(host, direct, c) => c in conns && Answers(alwaysProxy, conns[c], host, direct)
    case PutMissing(c) => c in conns && !conns[c].mux
    case PutSpawn(c, ch) => ch != MUX && Fits(conns, hostOf, ch, c)
    case PutSend(c, ch) => Fits(conns, hostOf, ch, c)
    case CloseNext(todo) => AllKnown(hostOf, todo)
    case Sweep(ch, _, _, todo) => ch in hostOf && AllKnown(hostOf, todo)
    case SweepTook(ch, _, _, todo, c, _) => Fits(conns, hostOf, ch, c) && AllKnown(hostOf, todo)
    case SweepEmpty(ch, _, todo) => ch in hostOf && AllKnown(hostOf, todo)
    case Asleep(ch) => ch in hostOf
    case LastWait(ch) => ch in hostOf
    case Draining(ch) => ch in hostOf
    case DrainTook(ch, _) => ch in hostOf
    case Ended(ch) => ch in hostOf
    case _ => true
  }

  predicate AllKnown(hostOf: map<Chan, string>, todo: seq<Chan>) {
    forall i :: 0 <= i < |todo| ==> todo[i] in hostOf
  }

  predicate ContentOk(conns: map<Conn, Info>, hostOf: map<Chan, string>, ch: Chan, q: seq<Conn>) {
    forall i :: 0 <= i < |q| ==> Fits(conns, hostOf, ch, q[i])
  }

  ghost predicate RouteInv(s: State) {
    && s.hostOf.Keys == s.chans.Keys && MUX in s.chans
    && (forall ch :: ch in s.chans ==> ContentOk(s.conns, s.hostOf, ch, s.chans[ch]))
    && (forall h :: h in s.idle ==> s.idle[h] in s.hostOf && s.idle[h] != MUX && s.hostOf[s.idle[h]] == h)
    && (forall t :: t in s.threads ==> RouteOk(s.alwaysProxy, s.conns, s.hostOf, s.threads[t]))
  }

  predicate Grows<K, V(==)>(m: map<K, V>, m': map<K, V>) {
    forall k :: k in m ==> k in m' && m'[k] == m[k]
  }

  lemma {:induction false} RouteGrows(alwaysProxy: bool, conns: map<Conn, Info>, hostOf: map<Chan, string>,
                                      conns': map<Conn, Info>, hostOf': map<Chan, string>, p: Thread)
    requires RouteOk(alwaysProxy, conns, hostOf, p)
    requires Grows(conns, conns') && Grows(hostOf, hostOf')
    ensures RouteOk(alwaysProxy, conns', hostOf', p)
  {
  }

  lemma {:induction false} ContentGrows(conns: map<Conn, Info>, hostOf: map<Chan, string>,
                                        conns': map<Conn, Info>, hostOf': map<Chan, string>, ch: Chan, q: seq<Conn>)
    requires ContentOk(conns, hostOf, ch, q)
    requires Grows(conns, conns') && Grows(hostOf, hostOf')
    ensures ContentOk(conns', hostOf', ch, q)
  {
  }

  function ConnsAfter(s: State, m: Move): (conns: map<Conn, Info>) {
    if m.Open? then s.conns[m.c := m.info] else s.conns
  }

  function HostsAfter(s: State, m: Move): (hostOf: map<Chan, string>) {
    if m.Create? then s.hostOf[m.ch := m.host] else s.hostOf
  }

  /** A move puts the right thing on the right channel and leaves its goroutine with the right ones. */
  predicate Routes(s: State, m: Move) {
    && RouteOk(s.alwaysProxy, ConnsAfter(s, m), HostsAfter(s, m), m.p)
    && (m.Send? ==> Fits(s.conns, s.hostOf, m.ch, m.c))
    && (m.Open? ==> m.c !in s.conns)
    && (m.Create? ==> m.ch !in s.chans && m.host !in s.idle && m.ch != MUX)
    && (m.Fork? ==> m.ch in s.hostOf)
  }

  lemma {:induction false} RouteKept(s: State, t: nat, m: Move, u: nat)
    requires RouteInv(s) && Handles(s, t, m) && Routes(s, m) && u in Perform(s, t, m).threads
    ensures var s' := Perform(s, t, m); RouteOk(s'.alwaysProxy, s'.conns, s'.hostOf, s'.threads[u])
  {
    hide RouteOk, Fits, HeldBy, ContentOk;
    var s' := Perform(s, t, m);
    if m.Fork? && u == m.loop {
      RouteAsleep(s', m.ch);
    } else if u != t {
      assert Grows(s.conns, s'.conns) && Grows(s.hostOf, s'.hostOf);
      RouteGrows(s.alwaysProxy, s.conns, s.hostOf, s'.conns, s'.hostOf, s.threads[u]);
    }
  }

  lemma {:induction false} RoutedByMove(s: State, t: nat, m: Move)
    requires RouteInv(s) && Handles(s, t, m) && Routes(s, m)
    ensures RouteInv(Perform(s, t, m))
  {
    hide RouteOk, Fits, HeldBy, ContentOk;
    var s' := Perform(s, t, m);
    forall u | u in s'.threads ensures RouteOk(s'.alwaysProxy, s'.conns, s'.hostOf, s'.threads[u]) {
      RouteKept(s, t, m, u);
    }
    forall ch | ch in s'.chans ensures ContentOk(s'.conns, s'.hostOf, ch, s'.chans[ch]) {
      ContentKept(s, t, m, ch);
    }
  }

  lemma {:induction false} RouteAsleep(s: State, ch: Chan)
    requires ch in s.hostOf
    ensures RouteOk(s.alwaysProxy, s.conns, s.hostOf, Asleep(ch))
  {
  }

  lemma {:induction false} ContentKept(s: State, t: nat, m: Move, ch: Chan)
    requires RouteInv(s) && Handles(s, t, m) && Routes(s, m) && ch in Perform(s, t, m).chans
    ensures ContentOk(Perform(s, t, m).conns, Perform(s, t, m).hostOf, ch, Perform(s, t, m).chans[ch])
  {
    hide RouteOk, Fits, HeldBy;
    var s' := Perform(s, t, m);
    if ch in s.chans {
      ContentGrows(s.conns, s.hostOf, s'.conns, s'.hostOf, ch, s.chans[ch]);
    }
  }

  // ---------------------------------------------------------------- cleanup loops

  /** The channel whose cleanup a goroutine runs, or is about to start. */
  function InCharge(p: Thread): (chs: set<Chan>) {
    if p.PutSpawn? || p.Asleep? || p.LastWait? || p.Draining? || p.DrainTook? || p.Ended? then {p.ch}
    else if (p.Sweep? || p.SweepTook? || p.SweepEmpty?) && !p.force then {p.ch}
    else {}
  }

  /** The loop has not yet removed its channel from the map. */
  predicate Unfinished(p: Thread) {
    p.PutSpawn? || p.Asleep? || ((p.Sweep? || p.SweepTook? || p.SweepEmpty?) && !p.force)
  }

  /** The goroutine recorded for a channel is in charge of it, and is unfinished if the map holds it. */
  predicate LoopOk(s: State, ch: Chan)
    requires ch in s.cleaner
  {
    s.cleaner[ch] in s.threads && InCharge(s.threads[s.cleaner[ch]]) == {ch}
  }

  predicate ChargeOk(cleaner: map<Chan, nat>, t: nat, charge: set<Chan>) {
    forall ch :: ch in charge ==> ch in cleaner && cleaner[ch] == t
  }

  ghost predicate CleanInv(s: State) {
    && s.cleaner.Keys == s.chans.Keys
    && (forall ch :: ch in s.cleaner ==> LoopOk(s, ch))
    && (forall t :: t in s.threads ==> ChargeOk(s.cleaner, t, InCharge(s.threads[t])))
    && (forall h :: h in s.idle ==> s.idle[h] in s.cleaner && s.cleaner[s.idle[h]] in s.threads
                                    && Unfinished(s.threads[s.cleaner[s.idle[h]]]))
  }

  /** A move passes on the charge it has, and gives up the map only by removing the channel. */
  predicate Cleans(s: State, t: nat, m: Move) {
    var p := if t in s.threads then s.threads[t] else Free;
    match m
    case Create(ch, host, q) => ch !in s.chans && InCharge(p) == {} && InCharge(q) == {ch} && Unfinished(q)
    case Fork(loop, ch, q) => loop !in s.threads && loop != t && InCharge(p) == {ch} && InCharge(q) == {}
    case Unmap(ch, q) => ch in s.hostOf && InCharge(q) == InCharge(p) && InCharge(p) <= {ch}
    case _ => InCharge(m.p) == InCharge(p) && (Unfinished(p) ==> Unfinished(m.p))
  }

  lemma {:induction false} AsleepInCharge(ch: Chan)
    ensures InCharge(Asleep(ch)) == {ch} && Unfinished(Asleep(ch)) && InCharge(Free) == {}
  {
  }

  lemma {:induction false} LoopKept(s: State, t: nat, m: Move, ch: Chan)
    requires CleanInv(s) && Handles(s, t, m) && Cleans(s, t, m) && ch in Perform(s, t, m).cleaner
    ensures LoopOk(Perform(s, t, m), ch)
  {
    hide InCharge, HeldBy, Unfinished, ChargeOk;
    AsleepInCharge(ch);
    if ch in s.cleaner {
      assert LoopOk(s, ch);
    }
  }

  lemma {:induction false} ChargeKept(s: State, t: nat, m: Move, u: nat)
    requires CleanInv(s) && Handles(s, t, m) && Cleans(s, t, m) && u in Perform(s, t, m).threads
    ensures ChargeOk(Perform(s, t, m).cleaner, u, InCharge(Perform(s, t, m).threads[u]))
  {
    hide InCharge, HeldBy, Unfinished, LoopOk;
    AsleepInCharge(if m.Fork? then m.ch else 0);
    if u in s.threads {
      assert ChargeOk(s.cleaner, u, InCharge(s.threads[u]));
    }
    if t in s.threads {
      assert ChargeOk(s.cleaner, t, InCharge(s.threads[t]));
    }
  }

  /** Where the loop of a mapped channel is before and after a move. */
  lemma {:induction false} LoopBefore(s: State, h: string)
    requires CleanInv(s) && h in s.idle
    ensures var ch := s.idle[h];
            && ch in s.cleaner && s.cleaner[ch] in s.threads
            && InCharge(s.threads[s.cleaner[ch]]) == {ch} && Unfinished(s.threads[s.cleaner[ch]])
  {
    hide InCharge, Unfinished, ChargeOk;
    assert LoopOk(s, s.idle[h]);
  }

  /** Once removed, a channel is no longer what the map holds for any host. */
  lemma {:induction false} UnmapRemoves(s: State, ch: Chan, h: string)
    requires RouteInv(s) && ch in s.hostOf && h in Remove(s.idle, s.hostOf[ch], ch)
    ensures h in s.idle && s.idle[h] == Remove(s.idle, s.hostOf[ch], ch)[h] && s.idle[h] != ch
  {
    hide RouteOk, ContentOk;
  }

  lemma {:induction false} MappedKept(s: State, t: nat, m: Move, h: string)
    requires CleanInv(s) && RouteInv(s) && Handles(s, t, m) && Cleans(s, t, m)
    requires h in Perform(s, t, m).idle
    ensures var s' := Perform(s, t, m);
            && s'.idle[h] in s'.cleaner && s'.cleaner[s'.idle[h]] in s'.threads
            && Unfinished(s'.threads[s'.cleaner[s'.idle[h]]])
  {
    hide InCharge, HeldBy, Unfinished, CleanInv, RouteInv, Remove;
    AsleepInCharge(if m.Fork? then m.ch else 0);
    if m.Unmap? {
      UnmapRemoves(s, m.ch, h);
    }
    if h in s.idle {
      LoopBefore(s, h);
      CreateIsNew(s, t, m, h);
    }
  }

  lemma {:induction false} CreateIsNew(s: State, t: nat, m: Move, h: string)
    requires CleanInv(s) && Cleans(s, t, m) && h in s.idle
    ensures m.Create? ==> s.idle[h] != m.ch
  {
    hide InCharge, Unfinished, LoopOk, ChargeOk;
  }

  lemma {:induction false} CleanedByMove(s: State, t: nat, m: Move)
    requires CleanInv(s) && RouteInv(s) && Handles(s, t, m) && Cleans(s, t, m) && Routes(s, m)
    ensures CleanInv(Perform(s, t, m))
  {
    hide InCharge, HeldBy, Unfinished, ChargeOk, LoopOk, RouteInv, RouteOk, Fits;
    var s' := Perform(s, t, m);
    forall ch | ch in s'.cleaner ensures LoopOk(s', ch) { LoopKept(s, t, m, ch); }
    forall u | u in s'.threads ensures ChargeOk(s'.cleaner, u, InCharge(s'.threads[u])) { ChargeKept(s, t, m, u); }
    forall h | h in s'.idle
      ensures s'.idle[h] in s'.cleaner && s'.cleaner[s'.idle[h]] in s'.threads
              && Unfinished(s'.threads[s'.cleaner[s'.idle[h]]])
    {
      MappedKept(s, t, m, h);
    }
    if m.Fork? {
      AsleepInCharge(m.ch);
      assert ChargeOk(s.cleaner, t, InCharge(s.threads[t])) by { CleanerKnown(s, t); }
      ForkKnown(s, t, m.ch);
    }
  }

  lemma {:induction false} CleanerKnown(s: State, t: nat)
    requires CleanInv(s) && t in s.threads
    ensures ChargeOk(s.cleaner, t, InCharge(s.threads[t]))
  {
    hide InCharge;
  }

  lemma {:induction false} ForkKnown(s: State, t: nat, ch: Chan)
    requires CleanInv(s) && t in s.threads && InCharge(s.threads[t]) == {ch}
    ensures ch in s.cleaner && s.cleaner[ch] == t
  {
    hide InCharge;
    assert ChargeOk(s.cleaner, t, InCharge(s.threads[t]));
  }

  // ---------------------------------------------------------------- every step of the program is sound

  ghost predicate Inv(s: State) {
    Placed(s) && RouteInv(s) && CleanInv(s)
  }

  ghost predicate Sound(s: State, t: nat, m: Move) {
    && (m.Receive? ==> m.ch in s.chans && s.chans[m.ch] != [])
    && (m.Send? ==> m.ch in s.chans)
    && (m.Unmap? ==> m.ch in s.hostOf)
    && Handles(s, t, m) && Routes(s, m) && Cleans(s, t, m)
  }

  lemma {:induction false} ThreadFacts(s: State, t: nat)
    requires Inv(s) && t in s.threads
    ensures RouteOk(s.alwaysProxy, s.conns, s.hostOf, s.threads[t])
    ensures s.hostOf.Keys == s.chans.Keys && MUX in s.chans
    ensures forall h :: h in s.idle ==> s.idle[h] in s.hostOf && s.idle[h] != MUX && s.hostOf[s.idle[h]] == h
    ensures HeldBy(s.threads[t]) <= s.conns.Keys
  {
    hide RouteOk, HeldBy, QueueOk, PlaceOk, ContentOk;
    assert HeldOk(s.place, t, HeldBy(s.threads[t]));
  }

  lemma {:induction false} HeadFits(s: State, ch: Chan)
    requires Inv(s) && ch in s.chans && s.chans[ch] != []
    ensures Fits(s.conns, s.hostOf, ch, s.chans[ch][0])
  {
    hide Fits;
    assert ContentOk(s.conns, s.hostOf, ch, s.chans[ch]);
  }

  lemma {:induction false} ClientRoutes(s: State, t: nat, a: ClientAction)
    requires Inv(s) && t in s.threads && ClientEnabled(s, s.threads[t], a)
    ensures Routes(s, ClientMove(s, s.threads[t], a))
  {
    hide Inv, HeldBy;
    ThreadFacts(s, t);
    if a.GetReceive? && s.chans[s.threads[t].ch] != [] {
      HeadFits(s, s.threads[t].ch);
    }
  }

  lemma {:induction false} ClientSound(s: State, t: nat, a: ClientAction)
    requires Inv(s) && t in s.threads && ClientEnabled(s, s.threads[t], a)
    ensures Sound(s, t, ClientMove(s, s.threads[t], a))
  {
    hide Inv, Routes;
    ClientRoutes(s, t, a);
  }

  lemma {:induction false} PutRoutes(s: State, t: nat, a: PutAction)
    requires Inv(s) && t in s.threads && PutEnabled(s, s.threads[t], a)
    ensures Routes(s, PutMove(s, s.threads[t], a))
  {
    hide Inv, HeldBy;
    ThreadFacts(s, t);
  }

  lemma {:induction false} PutSound(s: State, t: nat, a: PutAction)
    requires Inv(s) && t in s.threads && PutEnabled(s, s.threads[t], a)
    ensures Sound(s, t, PutMove(s, s.threads[t], a))
  {
    hide Inv, Routes;
    PutRoutes(s, t, a);
  }

  lemma {:induction false} SnapshotKnown(s: State, t: nat, todo: seq<Chan>)
    requires Inv(s) && t in s.threads && Snapshot(s, todo)
    ensures AllKnown(s.hostOf, todo)
  {
    hide Inv, HeldBy, RouteOk;
    ThreadFacts(s, t);
    assert forall i :: 0 <= i < |todo| ==> todo[i] in todo;
  }

  lemma {:induction false} CloseAllRoutes(s: State, t: nat, a: SweepAction)
    requires Inv(s) && t in s.threads && SweepEnabled(s, s.threads[t], a) && (a.CloseAllCall? || a.CloseAllNext?)
    ensures Routes(s, SweepMove(s, s.threads[t], a))
  {
    hide Inv, HeldBy, Snapshot, Fits;
    ThreadFacts(s, t);
    if a.CloseAllCall? {
      SnapshotKnown(s, t, a.todo);
    }
  }

  lemma {:induction false} SweepRoutes(s: State, t: nat, a: SweepAction)
    requires Inv(s) && t in s.threads && SweepEnabled(s, s.threads[t], a)
    ensures Routes(s, SweepMove(s, s.threads[t], a))
  {
    hide Inv, HeldBy, Snapshot, AllKnown;
    if a.CloseAllCall? || a.CloseAllNext? {
      CloseAllRoutes(s, t, a);
    } else {
      ThreadFacts(s, t);
      NothingTodo(s.hostOf);
      if s.threads[t].Sweep? && s.chans[s.threads[t].ch] != [] {
        HeadFits(s, s.threads[t].ch);
      }
    }
  }

  lemma {:induction false} NothingTodo(hostOf: map<Chan, string>)
    ensures AllKnown(hostOf, [])
  {
  }

  lemma {:induction false} SweepSound(s: State, t: nat, a: SweepAction)
    requires Inv(s) && t in s.threads && SweepEnabled(s, s.threads[t], a)
    ensures Sound(s, t, SweepMove(s, s.threads[t], a))
  {
    hide Inv, Routes, Snapshot;
    SweepRoutes(s, t, a);
  }

  lemma {:induction false} InvKept(s: State, step: Step)
    requires Inv(s) && Enabled(s, step)
    ensures Inv(After(s, step)) && Sound(s, step.t, MoveOf(s, step))
  {
    hide ClientMove, PutMove, SweepMove, ClientEnabled, PutEnabled, SweepEnabled, Handles, Routes, Cleans,
         PlaceInv, RouteInv, CleanInv, Perform;
    var t, m := step.t, MoveOf(s, step);
    match step {
      case Spawn(_) => SpawnSound(s, t);
      case Client(_, a) => ClientSound(s, t, a);
      case Put(_, a) => PutSound(s, t, a);
      case Sweeper(_, a) => SweepSound(s, t, a);
    }
    PlacedByMove(s, t, m);
    RoutedByMove(s, t, m);
    CleanedByMove(s, t, m);
  }

  lemma {:induction false} SpawnSound(s: State, t: nat)
    requires t !in s.threads
    ensures Sound(s, t, Go(Free))
  {
  }

  lemma {:induction false} InitInv(alwaysProxy: bool)
    ensures Inv(Initial(alwaysProxy))
  {
  }

  // ---------------------------------------------------------------- whole runs

  ghost predicate IsRun(s: State, steps: seq<Step>)
    decreases |steps|
  {
    steps == [] || (Enabled(s, steps[0]) && IsRun(After(s, steps[0]), steps[1..]))
  }

  ghost function End(s: State, steps: seq<Step>): (s': State)
    requires IsRun(s, steps)
    decreases |steps|
  {
    if steps == [] then s else End(After(s, steps[0]), steps[1..])
  }

  lemma {:induction false} RunKeepsInv(s: State, steps: seq<Step>)
    requires Inv(s) && IsRun(s, steps)
    ensures Inv(End(s, steps))
    decreases |steps|
  {
    hide Inv, After, Enabled;
    if steps != [] {
      InvKept(s, steps[0]);
      RunKeepsInv(After(s, steps[0]), steps[1..]);
    }
  }

  ghost predicate Reaches(s: State, s': State) {
    exists steps :: IsRun(s, steps) && End(s, steps) == s'
  }

  ghost predicate Reachable(s: State) {
    Reaches(Initial(s.alwaysProxy), s)
  }

  lemma {:induction false} ReachableInv(s: State)
    requires Reachable(s)
    ensures Inv(s)
  {
    hide Inv;
    InitInv(s.alwaysProxy);
    var steps :| IsRun(Initial(s.alwaysProxy), steps) && End(Initial(s.alwaysProxy), steps) == s;
    RunKeepsInv(Initial(s.alwaysProxy), steps);
  }

  /** In every interleaving, each connection is at one position of one channel, or with one goroutine, or
      closed; so no connection is ever handed to two callers. */
  lemma {:induction false} OnePlaceEach(s: State)
    requires Reachable(s)
    ensures forall c :: c in s.conns <==> c in s.place
    ensures forall ch, i :: ch in s.chans && 0 <= i < |s.chans[ch]| ==>
              s.chans[ch][i] in s.place && s.place[s.chans[ch][i]] == InChan(ch)
    ensures forall ch, i, j :: ch in s.chans && 0 <= i < j < |s.chans[ch]| ==> s.chans[ch][i] != s.chans[ch][j]
    ensures forall t, c :: t in s.threads && c in HeldBy(s.threads[t]) ==> c in s.place && s.place[c] == Held(t)
    ensures forall c :: c in s.place ==> PlaceOk(s, c)
  {
    hide Reachable, RouteInv, CleanInv, HeldBy, PlaceOk;
    ReachableInv(s);
    assert forall ch :: ch in s.chans ==> QueueOk(s.place, ch, s.chans[ch]);
    forall t, c | t in s.threads && c in HeldBy(s.threads[t]) ensures c in s.place && s.place[c] == Held(t) {
      assert HeldOk(s.place, t, HeldBy(s.threads[t]));
    }
  }

  /** At most five idle connections for a host, and ten shared ones. */
  lemma {:induction false} ChannelsBounded(s: State, ch: Chan)
    requires Reachable(s) && ch in s.chans
    ensures |s.chans[ch]| <= if ch == MUX then 10 else 5
  {
    hide Reachable, RouteInv, CleanInv;
    ReachableInv(s);
    assert QueueOk(s.place, ch, s.chans[ch]);
  }

  /** Get returns a connection of its own: open, held by nobody else, and either made for the host it was asked
      for or, when the site is not direct or everything goes through parents, a shared one. */
  lemma {:induction false} GetAnswers(s: State, t: nat)
    requires Reachable(s) && t in s.threads && s.threads[t].Got?
    ensures var Got(host, direct, c) := s.threads[t];
            && c in s.conns && c in s.place && s.place[c] == Held(t)
            && (if s.conns[c].mux then !direct || s.alwaysProxy else s.conns[c].host == host)
            && (forall u :: u in s.threads && u != t ==> c !in HeldBy(s.threads[u]))
  {
    hide Reachable;
    ReachableInv(s);
    ThreadFacts(s, t);
    HeldPlace(s, t, s.threads[t].c);
    forall u | u in s.threads && u != t ensures s.threads[t].c !in HeldBy(s.threads[u]) {
      if s.threads[t].c in HeldBy(s.threads[u]) {
        HeldPlace(s, u, s.threads[t].c);
      }
    }
  }

  /** A channel in the map has one goroutine in charge of its cleanup, running or about to be started. */
  lemma {:induction false} OneCleanupLoop(s: State, h: string)
    requires Reachable(s) && h in s.idle
    ensures exists t :: t in s.threads && s.idle[h] in InCharge(s.threads[t]) && Unfinished(s.threads[t])
                        && forall u :: u in s.threads && s.idle[h] in InCharge(s.threads[u]) ==> u == t
  {
    hide Reachable, Placed, RouteInv, InCharge, Unfinished;
    ReachableInv(s);
    LoopBefore(s, h);
    var ch, t := s.idle[h], s.cleaner[s.idle[h]];
    forall u | u in s.threads && ch in InCharge(s.threads[u]) ensures u == t {
      assert ChargeOk(s.cleaner, u, InCharge(s.threads[u]));
    }
  }

  ghost predicate Mapped(s: State, ch: Chan) {
    exists h :: h in s.idle && s.idle[h] == ch
  }

  /** A removed channel is never put back. */
  lemma {:induction false} RemovedStaysOut(s: State, steps: seq<Step>, ch: Chan)
    requires Inv(s) && IsRun(s, steps)
    requires ch in s.chans && !Mapped(s, ch)
    ensures ch in End(s, steps).chans && !Mapped(End(s, steps), ch)
    decreases |steps|
  {
    hide Inv, Enabled, After, MoveOf, Mapped;
    if steps != [] {
      InvKept(s, steps[0]);
      StepKeepsOut(s, steps[0], ch);
      RemovedStaysOut(After(s, steps[0]), steps[1..], ch);
    }
  }

  lemma {:induction false} StepKeepsOut(s: State, step: Step, ch: Chan)
    requires Enabled(s, step) && Sound(s, step.t, MoveOf(s, step))
    requires ch in s.chans && !Mapped(s, ch)
    ensures ch in After(s, step).chans && !Mapped(After(s, step), ch)
  {
    hide MoveOf, Enabled, Handles, Cleans, RouteOk, Fits, Mapped;
    UnmappedStays(s, step.t, MoveOf(s, step), ch);
  }

  /** Only the removal of a channel itself takes it out of the map; a replacement is left alone. */
  lemma {:induction false} ReplacementSurvives(s: State, step: Step, h: string)
    requires Inv(s) && Enabled(s, step) && h in s.idle
    requires !(MoveOf(s, step).Unmap? && MoveOf(s, step).ch == s.idle[h])
    ensures h in After(s, step).idle && After(s, step).idle[h] == s.idle[h]
  {
    hide Inv, MoveOf, Enabled, Handles, Cleans, RouteOk, Fits;
    InvKept(s, step);
  }

  /** Goroutine `t` may still send on `ch`. */
  predicate MaySend(p: Thread, ch: Chan) {
    (p.PutSend? || p.PutSpawn? || (p.SweepTook? && !p.force)) && p.ch == ch
  }

  /** A channel that the map no longer holds, that is empty, and on which nobody can send any more. */
  ghost predicate Dead(s: State, ch: Chan) {
    && ch in s.chans && s.chans[ch] == [] && !Mapped(s, ch) && ch != MUX
    && (forall t :: t in s.threads ==> !MaySend(s.threads[t], ch))
    && ch in s.cleaner && s.cleaner[ch] in s.threads && s.threads[s.cleaner[ch]] == Ended(ch)
  }

  /** A move that does not come from the loop of `ch` keeps it dead. */
  predicate Harmless(s: State, m: Move, ch: Chan) {
    && !MaySend(m.p, ch)
    && (m.Send? ==> m.ch != ch)
    && (m.Fork? ==> m.ch != ch)
    && (m.Create? ==> m.ch != ch)
  }

  lemma {:induction false} DeadStep(s: State, t: nat, m: Move, ch: Chan)
    requires Dead(s, ch) && Sound(s, t, m) && Harmless(s, m, ch)
    requires t != s.cleaner[ch]
    ensures Dead(Perform(s, t, m), ch)
  {
    hide Handles, Cleans, RouteOk, Fits, MaySend, Mapped;
    var s' := Perform(s, t, m);
    AsleepCannotSend(if m.Fork? then m.ch else 0, ch);
    assert !Mapped(s', ch) by { UnmappedStays(s, t, m, ch); }
    if m.Fork? { ForkElsewhere(s, t, m); }
  }

  lemma {:induction false} ForkElsewhere(s: State, t: nat, m: Move)
    requires Sound(s, t, m) && m.Fork?
    ensures m.loop !in s.threads
  {
    hide Routes, Cleans;
  }

  lemma {:induction false} AsleepCannotSend(a: Chan, ch: Chan)
    ensures !MaySend(Asleep(a), ch)
  {
  }

  lemma {:induction false} UnmappedStays(s: State, t: nat, m: Move, ch: Chan)
    requires Sound(s, t, m) && ch in s.chans && !Mapped(s, ch)
    ensures !Mapped(Perform(s, t, m), ch)
  {
    hide Handles, Cleans, RouteOk, Fits;
  }

  /** Every step is harmless to a dead channel: a Put sends only where it looked up, or created, and its own
      loop has ended. */
  lemma {:induction false} StepHarmless(s: State, step: Step, ch: Chan)
    requires Inv(s) && Dead(s, ch) && Enabled(s, step)
    ensures Harmless(s, MoveOf(s, step), ch) && step.t != s.cleaner[ch]
  {
    hide Inv, Snapshot;
    assert forall h :: h in s.idle ==> s.idle[h] != ch;
  }

  /** Nothing is left behind: once the final drain ends with no Put pending on the channel, the channel stays
      empty in every continuation. */
  lemma {:induction false} DeadForever(s: State, steps: seq<Step>, ch: Chan)
    requires Inv(s) && Dead(s, ch) && IsRun(s, steps)
    ensures Dead(End(s, steps), ch)
    decreases |steps|
  {
    hide Inv, Enabled, MoveOf, Dead, Harmless, Sound, Perform;
    if steps != [] {
      InvKept(s, steps[0]);
      StepHarmless(s, steps[0], ch);
      DeadStep(s, steps[0].t, MoveOf(s, steps[0]), ch);
      DeadForever(After(s, steps[0]), steps[1..], ch);
    }
  }

  /** The end of the final drain with no Put pending on the channel. */
  lemma {:induction false} DrainLeavesDead(s: State, t: nat, ch: Chan)
    requires Reachable(s) && ch in s.chans && ch != MUX
    requires t in s.threads && s.threads[t] == Draining(ch) && s.chans[ch] == []
    requires forall u :: u in s.threads ==> !(s.threads[u].PutSend? && s.threads[u].ch == ch)
    ensures Dead(Perform(s, t, Go(Ended(ch))), ch)
  {
    hide Reachable, Inv, Mapped;
    ReachableInv(s);
    ChargeIsUnique(s, t, ch);
  }

  lemma {:induction false} ChargeIsUnique(s: State, t: nat, ch: Chan)
    requires Inv(s) && t in s.threads && s.threads[t] == Draining(ch)
    ensures ch in s.cleaner && s.cleaner[ch] == t && !Mapped(s, ch)
    ensures forall u :: u in s.threads && u != t ==> ch !in InCharge(s.threads[u])
    ensures !Mapped(Perform(s, t, Go(Ended(ch))), ch)
  {
    hide Placed, RouteInv, LoopOk;
    CleanerKnown(s, t);
    forall u | u in s.threads && u != t ensures ch !in InCharge(s.threads[u]) {
      CleanerKnown(s, u);
    }
  }

  /** The hypothesis is needed: a Put that is still pending when the loop has ended leaves its connection open
      in a channel that is in no map and has no loop. */
  lemma {:induction false} LatePutLeaks(s: State, u: nat, ch: Chan)
    requires Reachable(s) && u in s.threads && s.threads[u].PutSend? && s.threads[u].ch == ch && ch in s.chans
    requires ch in s.cleaner && s.cleaner[ch] in s.threads && s.threads[s.cleaner[ch]].Ended?
    requires |s.chans[ch]| < Capacity(ch)
    ensures var step := Put(u, PutTry);
            && Enabled(s, step)
            && s.threads[u].c in After(s, step).chans[ch]
            && After(s, step).place[s.threads[u].c] == InChan(ch)
            && !Mapped(After(s, step), ch)
            && (forall t :: t in After(s, step).threads ==>
                  !(ch in InCharge(After(s, step).threads[t]) && Unfinished(After(s, step).threads[t])))
  {
    hide Reachable, Placed, RouteInv;
    ReachableInv(s);
    var s', t := After(s, Put(u, PutTry)), s.cleaner[ch];
    assert LoopOk(s, ch);
    assert !Mapped(s, ch);
    assert s'.chans[ch][|s.chans[ch]|] == s.threads[u].c;
    forall v | v in s'.threads ensures !(ch in InCharge(s'.threads[v]) && Unfinished(s'.threads[v])) {
      CleanerKnown(s, v);
    }
  }

  /** The start state with the loop of the shared channel at `p`. */
  function LoopAt(alwaysProxy: bool, p: Thread): (s: State) {
    Initial(alwaysProxy).(threads := map[0 := p])
  }

  lemma {:induction false} LoopStep(alwaysProxy: bool, p: Thread, a: SweepAction, q: Thread)
    requires || (p == Asleep(MUX) && a == Wake && q == Sweep(MUX, 1, false, []))
             || (p == Sweep(MUX, 1, false, []) && a == SweepReceive(false) && q == SweepEmpty(MUX, false, []))
             || (p == SweepEmpty(MUX, false, []) && a == SweepRemove && q == LastWait(MUX))
             || (p == LastWait(MUX) && a == LastWake && q == Draining(MUX))
             || (p == Draining(MUX) && a == DrainReceive && q == Ended(MUX))
    ensures Enabled(LoopAt(alwaysProxy, p), Sweeper(0, a))
    ensures After(LoopAt(alwaysProxy, p), Sweeper(0, a)) == LoopAt(alwaysProxy, q)
  {
    assert map[0 := p][0 := q] == map[0 := q];
  }

  /** The loop of the shared channel ends the first time it finds the channel empty, although the channel stays
      in use: five steps from the start. */
  lemma {:induction false} SharedLoopEnds(alwaysProxy: bool)
    ensures Reachable(LoopAt(alwaysProxy, Ended(MUX)))
  {
    hide Enabled, After, Reaches;
    LoopStep(alwaysProxy, Asleep(MUX), Wake, Sweep(MUX, 1, false, []));
    LoopStep(alwaysProxy, Sweep(MUX, 1, false, []), SweepReceive(false), SweepEmpty(MUX, false, []));
    LoopStep(alwaysProxy, SweepEmpty(MUX, false, []), SweepRemove, LastWait(MUX));
    LoopStep(alwaysProxy, LastWait(MUX), LastWake, Draining(MUX));
    LoopStep(alwaysProxy, Draining(MUX), DrainReceive, Ended(MUX));
    var end := LoopAt(alwaysProxy, Ended(MUX));
    ReachesItself(end);
    ReachesFurther(LoopAt(alwaysProxy, Draining(MUX)), Sweeper(0, DrainReceive), end);
    ReachesFurther(LoopAt(alwaysProxy, LastWait(MUX)), Sweeper(0, LastWake), end);
    ReachesFurther(LoopAt(alwaysProxy, SweepEmpty(MUX, false, [])), Sweeper(0, SweepRemove), end);
    ReachesFurther(LoopAt(alwaysProxy, Sweep(MUX, 1, false, [])), Sweeper(0, SweepReceive(false)), end);
    ReachesFurther(LoopAt(alwaysProxy, Asleep(MUX)), Sweeper(0, Wake), end);
  }

  /** Thread `t` makes one move. */
  lemma {:induction false} MoveTowards(s: State, step: Step, m: Move, goal: State)
    requires Enabled(s, step) && MoveOf(s, step) == m && Reaches(Perform(s, step.t, m), goal)
    ensures Reaches(s, goal)
  {
    hide Enabled, MoveOf, Perform, Reaches;
    ReachesFurther(s, step, goal);
  }

  /** A client that dialed and is about to send on the channel it created, whose cleanup loop stands at `p`. */
  function LateAt(alwaysProxy: bool, host: string, p: Thread, idle: map<string, Chan>): (s: State) {
    State(alwaysProxy, map[][0 := Info(host, false)], map[MUX := []][1 := []], map[MUX := "@muxConn"][1 := host], idle,
          map[0 := Asleep(MUX)][1 := PutSend(0, 1)][2 := p], map[][0 := Held(1)], map[MUX := 0][1 := 2])
  }

  /** The start state when the client stands at `p`, with its connection if it has one. */
  function LateClient(alwaysProxy: bool, host: string, p: Thread, dialed: bool): (s: State) {
    State(alwaysProxy, if dialed then map[][0 := Info(host, false)] else map[], map[MUX := []], map[MUX := "@muxConn"], map[],
          map[0 := Asleep(MUX)][1 := p], if dialed then map[][0 := Held(1)] else map[], map[MUX := 0])
  }

  function LateCreated(alwaysProxy: bool, host: string): (s: State) {
    State(alwaysProxy, map[][0 := Info(host, false)], map[MUX := []][1 := []], map[MUX := "@muxConn"][1 := host],
        map[][host := 1],
          map[0 := Asleep(MUX)][1 := PutSpawn(0, 1)], map[][0 := Held(1)], map[MUX := 0][1 := 1])
  }

  lemma {:induction false} Overwrite<K, V>(m: map<K, V>, k: K, p: V, q: V)
    ensures m[k := p][k := q] == m[k := q]
  {
  }

  lemma {:induction false} LateCreates(alwaysProxy: bool, host: string, goal: State)
    requires Reaches(LateAt(alwaysProxy, host, Asleep(1), map[][host := 1]), goal)
    ensures Reaches(LateCreated(alwaysProxy, host), goal)
  {
    hide Reaches;
    var s := LateCreated(alwaysProxy, host);
    Overwrite(map[0 := Asleep(MUX)], 1, PutSpawn(0, 1), PutSend(0, 1));
    Overwrite(map[MUX := 0], 1, 1, 2);
    MoveTowards(s, Put(1, PutStart(2)), Fork(2, 1, PutSend(0, 1)), goal);
  }

  lemma {:induction false} LateLooksUp(alwaysProxy: bool, host: string, goal: State)
    requires Reaches(LateCreated(alwaysProxy, host), goal)
    ensures Reaches(LateClient(alwaysProxy, host, Using(0), true), goal)
  {
    hide Reaches;
    var s := LateClient(alwaysProxy, host, PutMissing(0), true);
    Overwrite(map[0 := Asleep(MUX)], 1, PutMissing(0), PutSpawn(0, 1));
    MoveTowards(s, Put(1, PutCreate(1)), Create(1, host, PutSpawn(0, 1)), goal);
    var r := LateClient(alwaysProxy, host, Using(0), true);
    Overwrite(map[0 := Asleep(MUX)], 1, Using(0), PutMissing(0));
    MoveTowards(r, Put(1, PutCall), Go(PutMissing(0)), goal);
  }

  lemma {:induction false} LateDials(alwaysProxy: bool, host: string, goal: State)
    requires Reaches(LateClient(alwaysProxy, host, Using(0), true), goal)
    ensures Reaches(Initial(alwaysProxy), goal)
  {
    hide Reaches;
    var s := LateClient(alwaysProxy, host, Free, false);
    Overwrite(map[0 := Asleep(MUX)], 1, Free, Using(0));
    MoveTowards(s, Client(1, Dial(0, Info(host, false))), Open(0, Info(host, false), Using(0)), goal);
    MoveTowards(Initial(alwaysProxy), Spawn(1), Go(Free), goal);
  }

  /** One step of the channel's loop. */
  lemma {:induction false} LateLoop(alwaysProxy: bool, host: string, p: Thread, a: SweepAction, q: Thread,
                                    idle: map<string, Chan>, goal: State)
    requires || (p == Asleep(1) && a == Wake && q == Sweep(1, 1, false, []))
             || (p == Sweep(1, 1, false, []) && a == SweepReceive(false) && q == SweepEmpty(1, false, []))
             || (p == LastWait(1) && a == LastWake && q == Draining(1))
             || (p == Draining(1) && a == DrainReceive && q == Ended(1))
    requires Reaches(LateAt(alwaysProxy, host, q, idle), goal)
    ensures Reaches(LateAt(alwaysProxy, host, p, idle), goal)
  {
    hide Reaches;
    var s := LateAt(alwaysProxy, host, p, idle);
    Overwrite(map[0 := Asleep(MUX)][1 := PutSend(0, 1)], 2, p, q);
    MoveTowards(s, Sweeper(2, a), Go(q), goal);
  }

  lemma {:induction false} LateRemoves(alwaysProxy: bool, host: string, goal: State)
    requires Reaches(LateAt(alwaysProxy, host, LastWait(1), map[]), goal)
    ensures Reaches(LateAt(alwaysProxy, host, SweepEmpty(1, false, []), map[][host := 1]), goal)
  {
    hide Reaches;
    var s := LateAt(alwaysProxy, host, SweepEmpty(1, false, []), map[][host := 1]);
    Overwrite(map[0 := Asleep(MUX)][1 := PutSend(0, 1)], 2, SweepEmpty(1, false, []), LastWait(1));
    assert map[][host := 1 as Chan] - {host} == map[];
    MoveTowards(s, Sweeper(2, SweepRemove), Unmap(1, LastWait(1)), goal);
  }

  /** It happens: a run for every host in which the loop of a new channel ends before its creator has sent. */
  lemma {:induction false} LatePutHappens(alwaysProxy: bool, host: string)
    ensures Reachable(LateAt(alwaysProxy, host, Ended(1), map[]))
  {
    hide Reaches;
    var goal, mapped := LateAt(alwaysProxy, host, Ended(1), map[]), map[][host := 1 as Chan];
    ReachesItself(goal);
    LateLoop(alwaysProxy, host, Draining(1), DrainReceive, Ended(1), map[], goal);
    LateLoop(alwaysProxy, host, LastWait(1), LastWake, Draining(1), map[], goal);
    LateRemoves(alwaysProxy, host, goal);
    LateLoop(alwaysProxy, host, Sweep(1, 1, false, []), SweepReceive(false), SweepEmpty(1, false, []), mapped, goal);
    LateLoop(alwaysProxy, host, Asleep(1), Wake, Sweep(1, 1, false, []), mapped, goal);
    LateCreates(alwaysProxy, host, goal);
    LateLooksUp(alwaysProxy, host, goal);
    LateDials(alwaysProxy, host, goal);
  }

  /** Such a state is one that LatePutLeaks is about. */
  lemma {:induction false} LatePutIsPending(alwaysProxy: bool, host: string)
    ensures var s := LateAt(alwaysProxy, host, Ended(1), map[]);
            && s.threads[1] == PutSend(0, 1) && s.cleaner[1] == 2 && s.threads[2] == Ended(1)
            && s.chans[1] == [] && Enabled(s, Put(1, PutTry)) && After(s, Put(1, PutTry)).chans[1] == [0]
            && After(s, Put(1, PutTry)).place[0] == InChan(1) && !Mapped(After(s, Put(1, PutTry)), 1)
  {
  }

  // ---------------------------------------------------------------- how long the shared loop runs

  /** The shared channel's loop goes on sweeping. */
  predicate Sweeping(p: Thread) {
    || p == Asleep(MUX)
    || (p.Sweep? && p.ch == MUX && !p.force && p.todo == [])
    || (p.SweepTook? && p.ch == MUX && !p.force && p.todo == [])
  }

  /** It is on its way out, or gone. */
  predicate Leaving(p: Thread) {
    || p == SweepEmpty(MUX, false, []) || p == LastWait(MUX) || p == Draining(MUX) || (p.DrainTook? && p.ch == MUX)
    || p == Ended(MUX)
  }

  /** A round of the shared loop that finds the channel empty. */
  predicate FindsEmpty(s: State, step: Step) {
    && step.Sweeper? && step.t == 0 && step.sa.SweepReceive? && 0 in s.threads && s.threads[0].Sweep?
    && s.threads[0].left > 0 && MUX in s.chans && s.chans[MUX] == []
  }

  ghost predicate FoundEmpty(s: State, steps: seq<Step>)
    requires IsRun(s, steps)
    decreases |steps|
  {
    steps != [] && (FindsEmpty(s, steps[0]) || FoundEmpty(After(s, steps[0]), steps[1..]))
  }

  /** A move changes the goroutine that makes it, and one that it starts. */
  lemma {:induction false} OnlyItMoves(s: State, t: nat, m: Move, u: nat)
    requires Handles(s, t, m) && u in s.threads
    ensures u in Perform(s, t, m).threads && Perform(s, t, m).threads[u] == if u == t then m.p else s.threads[u]
  {
    hide HeldBy;
  }

  lemma {:induction false} LoopActs(s: State, step: Step)
    requires Enabled(s, step) && step.t in s.threads && (Sweeping(s.threads[step.t]) || Leaving(s.threads[step.t]))
    ensures step.Sweeper? && MoveOf(s, step) == SweepMove(s, s.threads[step.t], step.sa)
  {
    hide ClientMove, PutMove, SweepMove, SweepEnabled;
  }

  lemma {:induction false} LoopStands(s: State, p: Thread, a: SweepAction)
    requires SweepEnabled(s, p, a) && (Sweeping(p) || Leaving(p))
    ensures var empty := a.SweepReceive? && p.Sweep? && p.left > 0 && MUX in s.chans && s.chans[MUX] == [];
            Sweeping(p) && !empty <==> Sweeping(SweepMove(s, p, a).p)
    ensures Leaving(p) ==> Leaving(SweepMove(s, p, a).p)
    ensures Sweeping(SweepMove(s, p, a).p) || Leaving(SweepMove(s, p, a).p)
  {
    hide Snapshot;
  }

  /** One step, seen from the shared loop. */
  lemma {:induction false} LoopMoves(s: State, step: Step)
    requires Inv(s) && Enabled(s, step) && 0 in s.threads && (Sweeping(s.threads[0]) || Leaving(s.threads[0]))
    ensures 0 in After(s, step).threads
    ensures var p := After(s, step).threads[0];
            (Sweeping(p) || Leaving(p)) && (Leaving(s.threads[0]) ==> Leaving(p)) &&
            (Sweeping(s.threads[0]) ==> (Leaving(p) <==> FindsEmpty(s, step)))
  {
    hide Inv, Enabled, MoveOf, SweepMove, Sweeping, Leaving, Handles, Routes, Cleans, Perform;
    InvKept(s, step);
    OnlyItMoves(s, step.t, MoveOf(s, step), 0);
    NotBoth(After(s, step).threads[0]);
    NotBoth(s.threads[0]);
    if step.t == 0 {
      LoopActs(s, step);
      assert SweepEnabled(s, s.threads[0], step.sa) by { SweeperEnabled(s, step); }
      LoopStands(s, s.threads[0], step.sa);
    }
  }

  lemma {:induction false} SweeperEnabled(s: State, step: Step)
    requires Enabled(s, step) && step.Sweeper?
    ensures step.t in s.threads && SweepEnabled(s, s.threads[step.t], step.sa)
  {
  }

  /** The shared loop is still sweeping if and only if it has never found the channel empty. */
  lemma {:induction false} SharedLoopRuns(s: State, steps: seq<Step>)
    requires Inv(s) && IsRun(s, steps) && 0 in s.threads && (Sweeping(s.threads[0]) || Leaving(s.threads[0]))
    ensures 0 in End(s, steps).threads
    ensures Sweeping(s.threads[0]) ==> (Sweeping(End(s, steps).threads[0]) <==> !FoundEmpty(s, steps))
    ensures Leaving(s.threads[0]) ==> Leaving(End(s, steps).threads[0])
    decreases |steps|
  {
    hide Inv, Enabled, After, Sweeping, Leaving, FindsEmpty;
    NotBoth(s.threads[0]);
    if steps != [] {
      LoopMoves(s, steps[0]);
      InvKept(s, steps[0]);
      NotBoth(After(s, steps[0]).threads[0]);
      SharedLoopRuns(After(s, steps[0]), steps[1..]);
      NotBoth(End(s, steps).threads[0]);
    }
  }

  lemma {:induction false} NotBoth(p: Thread)
    ensures !(Sweeping(p) && Leaving(p))
  {
  }

  /** The same from the start of the program. */
  lemma {:induction false} SharedLoopFromStart(alwaysProxy: bool, steps: seq<Step>)
    requires IsRun(Initial(alwaysProxy), steps)
    ensures 0 in End(Initial(alwaysProxy), steps).threads
    ensures Sweeping(End(Initial(alwaysProxy), steps).threads[0]) <==> !FoundEmpty(Initial(alwaysProxy), steps)
  {
    InitInv(alwaysProxy);
    SharedLoopRuns(Initial(alwaysProxy), steps);
  }

  // ---------------------------------------------------------------- putting a connection back

  /** A cleanup loop holds a connection that it wants to put back, and the channel has been filled in the meantime. */
  predicate HeldUp(s: State, t: nat, ch: Chan) {
    && t in s.threads && s.threads[t].SweepTook? && s.threads[t].ch == ch && !s.threads[t].force && !s.threads[t].stale
    && ch in s.chans && |s.chans[ch]| >= Capacity(ch)
  }

  ghost predicate Takes(s: State, step: Step, ch: Chan)
    requires Enabled(s, step)
  {
    MoveOf(s, step).Receive? && MoveOf(s, step).ch == ch
  }

  lemma {:induction false} CannotMove(s: State, step: Step, t: nat, ch: Chan)
    requires Enabled(s, step) && HeldUp(s, t, ch)
    ensures step.t != t
  {
  }

  /** What a move does to a full channel. */
  lemma {:induction false} FullChannel(s: State, t: nat, m: Move, ch: Chan)
    requires Handles(s, t, m) && ch in s.chans && |s.chans[ch]| >= Capacity(ch)
    ensures ch in Perform(s, t, m).chans
    ensures |Perform(s, t, m).chans[ch]| == |s.chans[ch]| - if m.Receive? && m.ch == ch then 1 else 0
  {
    hide HeldBy;
  }

  /** It waits until somebody else receives from the channel, and then it can put its connection back. */
  lemma {:induction false} HeldUpStep(s: State, step: Step, t: nat, ch: Chan)
    requires Inv(s) && HeldUp(s, t, ch) && Enabled(s, step)
    ensures step.t != t
    ensures Takes(s, step, ch) ==> Enabled(After(s, step), Sweeper(t, SweepPutBack))
    ensures !Takes(s, step, ch) ==> HeldUp(After(s, step), t, ch)
  {
    hide Inv, MoveOf, Handles, Routes, Cleans, Perform;
    CannotMove(s, step, t, ch);
    AtCapacity(s, ch);
    InvKept(s, step);
    OnlyItMoves(s, step.t, MoveOf(s, step), t);
    FullChannel(s, step.t, MoveOf(s, step), ch);
  }

  lemma {:induction false} AtCapacity(s: State, ch: Chan)
    requires Inv(s) && ch in s.chans
    ensures |s.chans[ch]| <= Capacity(ch)
  {
    hide RouteInv, CleanInv, PlaceOk, HeldOk;
    assert QueueOk(s.place, ch, s.chans[ch]);
  }

  ghost predicate SomebodyTakes(s: State, steps: seq<Step>, ch: Chan)
    requires IsRun(s, steps)
    decreases |steps|
  {
    steps != [] && (Takes(s, steps[0], ch) || SomebodyTakes(After(s, steps[0]), steps[1..], ch))
  }

  /** In a run in which nobody does, it waits for ever. */
  lemma {:induction false} HeldUpUntilTaken(s: State, steps: seq<Step>, t: nat, ch: Chan)
    requires Inv(s) && HeldUp(s, t, ch) && IsRun(s, steps) && !SomebodyTakes(s, steps, ch)
    ensures HeldUp(End(s, steps), t, ch)
    decreases |steps|
  {
    hide Inv, Enabled, After, MoveOf, HeldUp, Takes;
    if steps != [] {
      InvKept(s, steps[0]);
      HeldUpStep(s, steps[0], t, ch);
      HeldUpUntilTaken(After(s, steps[0]), steps[1..], t, ch);
    }
  }

  function Infos(host: string, n: nat): (m: map<Conn, Info>) {
    if n == 0 then map[] else Infos(host, n - 1)[n - 1 := Info(host, true)]
  }

  function Places(from: nat, n: nat): (m: map<Conn, Place>) {
    if n == 0 then map[] else Places(from, n - 1)[n - 1 := if n - 1 < from then Held(0) else InChan(MUX)]
  }

  function Numbers(from: nat, n: nat): (q: seq<Conn>)
    requires from <= n
    ensures |q| == n - from
  {
    if n == from then [] else Numbers(from, n - 1) + [n - 1]
  }

  /** The shared loop at `p`, a client at `k`, and the connections from `from` to `n` in the shared channel; the one before
      `from`, if there is one, is with the loop, and the one numbered `n`, if the client has it, with the client. */
  function FillAt(alwaysProxy: bool, host: string, from: nat, n: nat, p: Thread, k: Thread): (s: State)
    requires from <= n
  {
    State(alwaysProxy, Infos(host, if k.Free? then n else n + 1), map[][MUX := Numbers(from, n)],
          map[MUX := "@muxConn"], map[], map[0 := p][1 := k],
          if k.Free? then Places(from, n) else Places(from, n)[n := Held(1)], map[MUX := 0])
  }

  lemma {:induction false} InfosHave(host: string, n: nat, c: Conn)
    ensures c in Infos(host, n) <==> c < n
    ensures c < n ==> Infos(host, n)[c] == Info(host, true)
  {
    if n > 0 { InfosHave(host, n - 1, c); }
  }

  /** A client dials and puts its connection into the shared channel. */
  lemma {:induction false} FillOne(alwaysProxy: bool, host: string, from: nat, n: nat, p: Thread, goal: State)
    requires from <= n && n - from < Capacity(MUX)
    requires Reaches(FillAt(alwaysProxy, host, from, n + 1, p, Free), goal)
    ensures Reaches(FillAt(alwaysProxy, host, from, n, p, Free), goal)
  {
    hide Reaches;
    FillSends(alwaysProxy, host, from, n, p);
    MoveTowards(FillAt(alwaysProxy, host, from, n, p, PutSend(n, MUX)), Put(1, PutTry), Send(MUX, n, Free), goal);
    FillLooksUp(alwaysProxy, host, from, n, p);
    MoveTowards(FillAt(alwaysProxy, host, from, n, p, Using(n)), Put(1, PutCall), Go(PutSend(n, MUX)), goal);
    FillDials(alwaysProxy, host, from, n, p);
    MoveTowards(FillAt(alwaysProxy, host, from, n, p, Free), Client(1, Dial(n, Info(host, true))),
                Open(n, Info(host, true), Using(n)), goal);
  }

  lemma {:induction false} FillSends(alwaysProxy: bool, host: string, from: nat, n: nat, p: Thread)
    requires from <= n && n - from < Capacity(MUX)
    ensures var s := FillAt(alwaysProxy, host, from, n, p, PutSend(n, MUX));
            && Enabled(s, Put(1, PutTry)) && MoveOf(s, Put(1, PutTry)) == Send(MUX, n, Free)
            && Perform(s, 1, Send(MUX, n, Free)) == FillAt(alwaysProxy, host, from, n + 1, p, Free)
  {
    Overwrite(map[0 := p], 1, PutSend(n, MUX), Free);
    Overwrite(map[], MUX, Numbers(from, n), Numbers(from, n + 1));
    Overwrite(Places(from, n), n, Held(1), InChan(MUX));
  }

  lemma {:induction false} FillLooksUp(alwaysProxy: bool, host: string, from: nat, n: nat, p: Thread)
    requires from <= n
    ensures var s := FillAt(alwaysProxy, host, from, n, p, Using(n));
            && Enabled(s, Put(1, PutCall)) && MoveOf(s, Put(1, PutCall)) == Go(PutSend(n, MUX))
            && Perform(s, 1, Go(PutSend(n, MUX))) == FillAt(alwaysProxy, host, from, n, p, PutSend(n, MUX))
  {
    InfosHave(host, n + 1, n);
    Overwrite(map[0 := p], 1, Using(n), PutSend(n, MUX));
  }

  lemma {:induction false} FillDials(alwaysProxy: bool, host: string, from: nat, n: nat, p: Thread)
    requires from <= n
    ensures var s, a, m := FillAt(alwaysProxy, host, from, n, p, Free), Client(1, Dial(n, Info(host, true))),
                           Open(n, Info(host, true), Using(n));
            && Enabled(s, a) && MoveOf(s, a) == m
            && Perform(s, 1, m) == FillAt(alwaysProxy, host, from, n, p, Using(n))
  {
    InfosHave(host, n, n);
    Overwrite(map[0 := p], 1, Free, Using(n));
  }

  lemma {:induction false} FillMany(alwaysProxy: bool, host: string, n: nat, p: Thread, goal: State)
    requires 1 <= n <= 11 && Reaches(FillAt(alwaysProxy, host, 1, 11, p, Free), goal)
    ensures Reaches(FillAt(alwaysProxy, host, 1, n, p, Free), goal)
    decreases 11 - n
  {
    hide Reaches;
    if n < 11 {
      FillMany(alwaysProxy, host, n + 1, p, goal);
      FillOne(alwaysProxy, host, 1, n, p, goal);
    }
  }

  /** It happens: the shared loop takes the only connection for a moment, and ten others are put into the channel. */
  lemma {:induction false} PutBackHeldUp(alwaysProxy: bool, host: string) returns (s: State)
    ensures Reachable(s) && HeldUp(s, 0, MUX)
  {
    hide Reaches;
    var took := SweepTook(MUX, 0, false, [], 0, false);
    s := FillAt(alwaysProxy, host, 1, 11, took, Free);
    ReachesItself(s);
    FillMany(alwaysProxy, host, 1, took, s);
    FillSwept(alwaysProxy, host, s);
    FillOne(alwaysProxy, host, 0, 0, Asleep(MUX), s);
    FillStarts(alwaysProxy, host, s);
  }

  lemma {:induction false} FillSwept(alwaysProxy: bool, host: string, goal: State)
    requires Reaches(FillAt(alwaysProxy, host, 1, 1, SweepTook(MUX, 0, false, [], 0, false), Free), goal)
    ensures Reaches(FillAt(alwaysProxy, host, 0, 1, Asleep(MUX), Free), goal)
  {
    hide Reaches, Enabled, MoveOf, Perform;
    var took, sweep := SweepTook(MUX, 0, false, [], 0, false), Sweep(MUX, 1, false, []);
    SweepTakes(alwaysProxy, host);
    MoveTowards(FillAt(alwaysProxy, host, 0, 1, sweep, Free), Sweeper(0, SweepReceive(false)), Receive(MUX, took), goal);
    SweepBegins(alwaysProxy, host);
    MoveTowards(FillAt(alwaysProxy, host, 0, 1, Asleep(MUX), Free), Sweeper(0, Wake), Go(sweep), goal);
  }

  lemma {:induction false} SweepTakes(alwaysProxy: bool, host: string)
    ensures var took := SweepTook(MUX, 0, false, [], 0, false);
            var s := FillAt(alwaysProxy, host, 0, 1, Sweep(MUX, 1, false, []), Free);
            && Enabled(s, Sweeper(0, SweepReceive(false))) && MoveOf(s, Sweeper(0, SweepReceive(false))) == Receive(MUX, took)
            && Perform(s, 0, Receive(MUX, took)) == FillAt(alwaysProxy, host, 1, 1, took, Free)
  {
    var took, s := SweepTook(MUX, 0, false, [], 0, false), FillAt(alwaysProxy, host, 0, 1, Sweep(MUX, 1, false, []), Free);
    assert Numbers(0, 1) == [0] && Numbers(1, 1) == [];
    Overwrite(map[], MUX, Numbers(0, 1), Numbers(1, 1));
    assert s.threads[0 := took] == map[0 := took][1 := Free];
    assert Places(0, 0) == map[] == Places(1, 0);
    Overwrite(map[], 0, InChan(MUX), Held(0));
  }

  lemma {:induction false} SweepBegins(alwaysProxy: bool, host: string)
    ensures var sweep, s := Sweep(MUX, 1, false, []), FillAt(alwaysProxy, host, 0, 1, Asleep(MUX), Free);
            && Enabled(s, Sweeper(0, Wake)) && MoveOf(s, Sweeper(0, Wake)) == Go(sweep)
            && Perform(s, 0, Go(sweep)) == FillAt(alwaysProxy, host, 0, 1, sweep, Free)
  {
    var sweep := Sweep(MUX, 1, false, []);
    assert map[0 := Asleep(MUX)][1 := Free][0 := sweep] == map[0 := sweep][1 := Free];
  }

  lemma {:induction false} FillStarts(alwaysProxy: bool, host: string, goal: State)
    requires Reaches(FillAt(alwaysProxy, host, 0, 0, Asleep(MUX), Free), goal)
    ensures Reaches(Initial(alwaysProxy), goal)
  {
    hide Reaches;
    assert map[][MUX := Numbers(0, 0)] == map[MUX := []];
    MoveTowards(Initial(alwaysProxy), Spawn(1), Go(Free), goal);
  }

  lemma {:induction false} ReachesItself(s: State)
    ensures Reaches(s, s)
  {
    assert IsRun(s, []);
  }

  lemma {:induction false} ReachesFurther(s: State, step: Step, goal: State)
    requires Enabled(s, step) && Reaches(After(s, step), goal)
    ensures Reaches(s, goal)
  {
    hide Enabled, After;
    var steps :| IsRun(After(s, step), steps) && End(After(s, step), steps) == goal;
    assert ([step] + steps)[1..] == steps;
    assert IsRun(s, [step] + steps);
  }
}
