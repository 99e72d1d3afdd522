/** plugin.go: the bounded admission queue of the HTTP plugin, as a transition system. A step is one atomic
    action of one goroutine: taking or leaving the mutex, a test made under it, one channel operation, one
    counter update. Any number of request goroutines, closers and the single worker interleave freely. */
module PluginQueue {

  const LIMIT: nat := 64

  type Id = nat

  /** How an admitted exchange ends. */
  datatype Fate = Written | Skipped | Failed | Dropped | Aborted

  /** Where a goroutine stands; `e` is the exchange it owns, if any. */
  datatype Thread =
    | Idle
    | BeginLocked         // begin: read lock taken
    | BeginOpen           // begin: the writer is not closed and the request fits
    | BeginDone(e: Id)    // begin: slot taken
    | BeginRefused        // begin: no exchange
    | Held(e: Id)         // the request owns the exchange
    | SubmitLocked(e: Id) // submit: read lock taken
    | SubmitOpen(e: Id)   // submit: not closed, both bodies within the limit
    | SubmitRefused(e: Id) // submit: counted as dropped, about to give the slot back
    | SubmitDone          // submit: about to unlock
    | Releasing(e: Id)    // discard outside submit: about to give the slot back
    | CloseLocked         // close: write lock taken
    | CloseMarked         // close: `closed` set, job channel still open
    | CloseUnlocking
    | CloseWaiting        // close: waiting for the worker

  /** sync.RWMutex */
  datatype Lock = Lock(readers: set<nat>, writer: set<nat>)

  datatype Worker = Waiting | Storing(e: Id) | Stored(e: Id) | Finished

  /** Where a live exchange is: with a request, its fate open or already decided; in the job channel; with the
      worker, before or after its fate is counted. */
  datatype Place = InRequest(t: nat) | Leaving(t: nat) | Queued | InWorker | WorkerLeaving

  /** The four atomic counters; `refused` is the part of `dropped` that was counted before admission. */
  datatype Counters = Counters(written: nat, skipped: nat, failed: nat, dropped: nat, refused: nat)

  /** `place`, `fates`, `queued` and `stored` record history; no step depends on them. */
  datatype State = State(
    threads: map<nat, Thread>,
    lock: Lock,
    slots: nat,            // tokens in the slot channel
    jobs: seq<Id>,         // contents of the job channel
    jobsClosed: bool,
    closed: bool,
    worker: Worker,
    counters: Counters,
    admitted: nat,         // exchanges created so far; also the next identifier
    place: map<Id, Place>, // the exchanges that occupy a slot
    fates: map<Id, Fate>,
    queued: seq<Id>,
    stored: seq<Id>)

  const INIT: State :=
    State(map[], Lock({}, {}), 0, [], false, false, Waiting, Counters(0, 0, 0, 0, 0), 0, map[], map[], [], [])

  predicate Reads(p: Thread) {
    p.BeginLocked? || p.BeginOpen? || p.BeginDone? || p.BeginRefused?
    || p.SubmitLocked? || p.SubmitOpen? || p.SubmitRefused? || p.SubmitDone?
  }

  predicate Writes(p: Thread) {
    p.CloseLocked? || p.CloseMarked? || p.CloseUnlocking?
  }

  /** The actions of a request goroutine outside submit. The parameters are outcomes of the environment. */
  datatype RequestAction =
    | Spawn
    | BeginLock
    | BeginCheck(tooLong: bool)
    | BeginTake
    | BeginUnlock
    | Discard(counted: bool)  // counted: the oversized response header of readResponse
    | Release

  datatype SubmitAction = SubmitLock | SubmitCheck(tooLarge: bool) | SubmitSend | SubmitRelease | SubmitUnlock

  datatype CloseAction = CloseLock | CloseMark | CloseJobs | CloseUnlock | CloseReturn

  datatype WorkAction = Take | Stop | Store(fate: Fate) | GiveBack

  /** One atomic action of goroutine `t`, or of the worker. */
  datatype Step =
    | Request(t: nat, r: RequestAction)
    | Submit(t: nat, u: SubmitAction)
    | Close(t: nat, c: CloseAction)
    | Work(w: WorkAction)

  function Goto(s: State, t: nat, p: Thread): (s': State) {
    s.(threads := s.threads[t := p])
  }

  function RLock(s: State, t: nat): (s': State) {
    s.(lock := s.lock.(readers := s.lock.readers + {t}))
  }

  function RUnlock(s: State, t: nat): (s': State) {
    s.(lock := s.lock.(readers := s.lock.readers - {t}))
  }

  /** A drop counted before the exchange exists. */
  function Refuse(s: State, t: nat): (s': State) {
    Goto(s, t, BeginRefused).(counters := s.counters.(dropped := s.counters.dropped + 1,
                                                      refused := s.counters.refused + 1))
  }

  function Count(c: Counters, f: Fate): (c': Counters) {
    match f
    case Written => c.(written := c.written + 1)
    case Skipped => c.(skipped := c.skipped + 1)
    case Failed => c.(failed := c.failed + 1)
    case Dropped => c.(dropped := c.dropped + 1)
    case Aborted => c
  }

  /** The exchange of goroutine `t` meets its fate there; its slot is given back by a later step. */
  function Settle(s: State, t: nat, e: Id, f: Fate, p: Thread): (s': State) {
    Goto(s, t, p).(counters := Count(s.counters, f), fates := s.fates[e := f], place := s.place[e := Leaving(t)])
  }

  /** One receive from the slot channel, which blocks when there is no token. */
  function Free(s: State, e: Id): (s': State)
    requires s.slots > 0
  {
    s.(slots := s.slots - 1, place := s.place - {e})
  }

  predicate RequestEnabled(s: State, t: nat, a: RequestAction) {
    if a.Spawn? then t !in s.threads
    else
      t in s.threads &&
      match a
      case Spawn => false
      case BeginLock => s.threads[t].Idle? && s.lock.writer == {}
      case BeginCheck(_) => s.threads[t].BeginLocked?
      case BeginTake => s.threads[t].BeginOpen?
      case BeginUnlock => s.threads[t].BeginDone? || s.threads[t].BeginRefused?
      case Discard(_) => s.threads[t].Held?
      case Release => s.threads[t].Releasing? && s.slots > 0
  }

  function AfterRequest(s: State, t: nat, a: RequestAction): (s': State)
    requires RequestEnabled(s, t, a)
  {
    match a
    case Spawn => Goto(s, t, Idle)
    case BeginLock => Goto(RLock(s, t), t, BeginLocked)
    case BeginCheck(tooLong) =>
      if s.closed then Goto(s, t, BeginRefused) else if tooLong then Refuse(s, t) else Goto(s, t, BeginOpen)
    case BeginTake =>
      if s.slots < LIMIT then
        Goto(s, t, BeginDone(s.admitted)).(slots := s.slots + 1, admitted := s.admitted + 1,
                                           place := s.place[s.admitted := InRequest(t)])
      else
        Refuse(s, t)
    case BeginUnlock =>
      Goto(RUnlock(s, t), t, if s.threads[t].BeginDone? then Held(s.threads[t].e) else Idle)
    case Discard(counted) =>
      var e := s.threads[t].e;
      Settle(s, t, e, if counted then Dropped else Aborted, Releasing(e))
    case Release => Goto(Free(s, s.threads[t].e), t, Idle)
  }

  predicate SubmitEnabled(s: State, t: nat, a: SubmitAction) {
    t in s.threads &&
    match a
    case SubmitLock => s.threads[t].Held? && s.lock.writer == {}
    case SubmitCheck(_) => s.threads[t].SubmitLocked?
    case SubmitSend => s.threads[t].SubmitOpen?
    case SubmitRelease => s.threads[t].SubmitRefused? && s.slots > 0
    case SubmitUnlock => s.threads[t].SubmitDone?
  }

  function AfterSubmit(s: State, t: nat, a: SubmitAction): (s': State)
    requires SubmitEnabled(s, t, a)
  {
    var p := s.threads[t];
    match a
    case SubmitLock => Goto(RLock(s, t), t, SubmitLocked(p.e))
    case SubmitCheck(tooLarge) =>
      if s.closed || tooLarge then Settle(s, t, p.e, Dropped, SubmitRefused(p.e)) else Goto(s, t, SubmitOpen(p.e))
    case SubmitSend =>
      if |s.jobs| < LIMIT then
        Goto(s, t, SubmitDone).(jobs := s.jobs + [p.e], queued := s.queued + [p.e], place := s.place[p.e := Queued])
      else
        Settle(s, t, p.e, Dropped, SubmitRefused(p.e))
    case SubmitRelease => Goto(Free(s, p.e), t, SubmitDone)
    case SubmitUnlock => Goto(RUnlock(s, t), t, Idle)
  }

  predicate CloseEnabled(s: State, t: nat, a: CloseAction) {
    t in s.threads &&
    match a
    case CloseLock => s.threads[t].Idle? && s.lock == Lock({}, {})
    case CloseMark => s.threads[t].CloseLocked?
    case CloseJobs => s.threads[t].CloseMarked?
    case CloseUnlock => s.threads[t].CloseUnlocking?
    case CloseReturn => s.threads[t].CloseWaiting? && s.worker == Finished
  }

  function AfterClose(s: State, t: nat, a: CloseAction): (s': State)
    requires CloseEnabled(s, t, a)
  {
    match a
    case CloseLock => Goto(s, t, CloseLocked).(lock := Lock({}, {t}))
    case CloseMark =>
      if !s.closed then Goto(s, t, CloseMarked).(closed := true) else Goto(s, t, CloseUnlocking)
    case CloseJobs => Goto(s, t, CloseUnlocking).(jobsClosed := true)
    case CloseUnlock => Goto(s, t, CloseWaiting).(lock := Lock({}, {}))
    case CloseReturn => Goto(s, t, Idle)
  }

  predicate WorkEnabled(s: State, a: WorkAction) {
    match a
    case Take => s.worker == Waiting && s.jobs != []
    case Stop => s.worker == Waiting && s.jobs == [] && s.jobsClosed
    case Store(f) => s.worker.Storing? && ByDatabase(f)
    case GiveBack => s.worker.Stored? && s.slots > 0
  }

  function AfterWork(s: State, a: WorkAction): (s': State)
    requires WorkEnabled(s, a)
  {
    match a
    case Take => s.(worker := Storing(s.jobs[0]), jobs := s.jobs[1..], place := s.place[s.jobs[0] := InWorker])
    case Stop => s.(worker := Finished)
    case Store(f) =>
      var e := s.worker.e;
      s.(worker := Stored(e), counters := Count(s.counters, f), fates := s.fates[e := f],
         place := s.place[e := WorkerLeaving], stored := s.stored + [e])
    case GiveBack => Free(s, s.worker.e).(worker := Waiting)
  }

  predicate Enabled(s: State, step: Step) {
    match step
    case Request(t, a) => RequestEnabled(s, t, a)
    case Submit(t, a) => SubmitEnabled(s, t, a)
    case Close(t, a) => CloseEnabled(s, t, a)
    case Work(a) => WorkEnabled(s, a)
  }

  function After(s: State, step: Step): (s': State)
    requires Enabled(s, step)
  {
    match step
    case Request(t, a) => AfterRequest(s, t, a)
    case Submit(t, a) => AfterSubmit(s, t, a)
    case Close(t, a) => AfterClose(s, t, a)
    case Work(a) => AfterWork(s, a)
  }

  // ---------------------------------------------------------------- the invariant

  /** What the position of goroutine `t` says about the lock and the two closing flags. */
  predicate LockOk(lock: Lock, closed: bool, jobsClosed: bool, t: nat, p: Thread) {
    && (Reads(p) ==> t in lock.readers)
    && (Writes(p) ==> lock.writer == {t})
    && (p.BeginOpen? || p.SubmitOpen? ==> !closed)
    && (p.CloseMarked? ==> closed && !jobsClosed)
  }

  /** The job channel closes after `closed` is set, and no reader that passed the test is then inside. */
  ghost predicate LockInv(s: State) {
    && (s.lock.writer == {} || s.lock.readers == {})
    && (s.jobsClosed ==> s.closed)
    && (s.worker == Finished ==> s.jobsClosed && s.jobs == [])
    && (forall t :: t in s.threads ==> LockOk(s.lock, s.closed, s.jobsClosed, t, s.threads[t]))
  }

  /** What a goroutine's position says about the exchange it owns. */
  datatype Hold = Nothing | Open(e: Id) | Decided(e: Id)

  function HoldOf(p: Thread): (h: Hold) {
    if p.BeginDone? || p.Held? || p.SubmitLocked? || p.SubmitOpen? then Open(p.e)
    else if p.SubmitRefused? || p.Releasing? then Decided(p.e)
    else Nothing
  }

  /** An exchange that a goroutine owns is recorded as being with that goroutine. */
  predicate OwnOk(place: map<Id, Place>, t: nat, h: Hold) {
    match h
    case Nothing => true
    case Open(e) => e in place && place[e] == InRequest(t)
    case Decided(e) => e in place && place[e] == Leaving(t)
  }

  /** The goroutine, queue position or worker that a place names does hold the exchange. */
  predicate PlaceOk(s: State, e: Id)
    requires e in s.place
  {
    match s.place[e]
    case InRequest(t) => t in s.threads && HoldOf(s.threads[t]) == Open(e)
    case Leaving(t) => t in s.threads && HoldOf(s.threads[t]) == Decided(e)
    case Queued => e in s.jobs
    case InWorker => s.worker == Storing(e)
    case WorkerLeaving => s.worker == Stored(e)
  }

  ghost predicate PlaceInv(s: State) {
    && (forall t :: t in s.threads ==> OwnOk(s.place, t, HoldOf(s.threads[t])))
    && (forall i :: 0 <= i < |s.jobs| ==> s.jobs[i] in s.place && s.place[s.jobs[i]] == Queued)
    && (forall i, j :: 0 <= i < j < |s.jobs| ==> s.jobs[i] != s.jobs[j])
    && (s.worker.Storing? ==> s.worker.e in s.place && s.place[s.worker.e] == InWorker)
    && (s.worker.Stored? ==> s.worker.e in s.place && s.place[s.worker.e] == WorkerLeaving)
    && (forall e :: e in s.place ==> PlaceOk(s, e))
  }

  predicate Undecided(p: Place) {
    p.InRequest? || p.Queued? || p.InWorker?
  }

  /** Exactly the exchanges that are no longer undecided somewhere have a fate, and the slot channel holds one
      token for each live exchange. */
  ghost predicate FateInv(s: State) {
    FateOk(s.slots, s.admitted, s.place, s.fates)
  }

  ghost predicate FateOk(slots: nat, admitted: nat, place: map<Id, Place>, fates: map<Id, Fate>) {
    && slots == |place.Keys| && slots <= LIMIT
    && (forall e :: e in place ==> e < admitted)
    && (forall e: Id :: e in fates <==> e < admitted && !(e in place && Undecided(place[e])))
  }

  function With(fates: map<Id, Fate>, f: Fate): (es: set<Id>) {
    set e | e in fates && fates[e] == f
  }

  ghost predicate CountInv(s: State) {
    CountOk(s.counters, s.fates)
  }

  ghost predicate CountOk(c: Counters, fates: map<Id, Fate>) {
    && c.written == |With(fates, Written)|
    && c.skipped == |With(fates, Skipped)|
    && c.failed == |With(fates, Failed)|
    && c.dropped == c.refused + |With(fates, Dropped)|
  }

  predicate ByDatabase(f: Fate) {
    f == Written || f == Skipped || f == Failed
  }

  /** First in, first out, and nothing lost between the queue and the store. */
  ghost predicate QueueInv(s: State) {
    && s.queued == s.stored + (if s.worker.Storing? then [s.worker.e] else []) + s.jobs
    && StoredOk(s.stored, s.fates)
  }

  ghost predicate StoredOk(stored: seq<Id>, fates: map<Id, Fate>) {
    forall i :: 0 <= i < |stored| ==> stored[i] in fates && ByDatabase(fates[stored[i]])
  }

  ghost predicate Inv(s: State) {
    LockInv(s) && PlaceInv(s) && FateInv(s) && CountInv(s) && QueueInv(s)
  }

  // ---------------------------------------------------------------- preservation

  lemma {:induction false} InitInv()
    ensures Inv(INIT)
  {
  }

  /** A goroutine moves: the others keep their guarantee as far as the lock and the flags allow. */
  lemma {:induction false} LockMoved(s: State, s': State, t: nat)
    requires LockInv(s)
    requires t in s'.threads && s'.threads == s.threads[t := s'.threads[t]]
    requires LockOk(s'.lock, s'.closed, s'.jobsClosed, t, s'.threads[t])
    requires forall u, p :: u != t && LockOk(s.lock, s.closed, s.jobsClosed, u, p)
                            ==> LockOk(s'.lock, s'.closed, s'.jobsClosed, u, p)
    requires s'.lock.writer == {} || s'.lock.readers == {}
    requires s'.jobsClosed ==> s'.closed
    requires s.worker == s'.worker && (s'.worker == Finished ==> s'.jobsClosed && s'.jobs == [])
    ensures LockInv(s')
  {
    hide LockOk;
  }

  lemma {:induction false} LockKeptByRequest(s: State, t: nat, a: RequestAction)
    requires LockInv(s) && RequestEnabled(s, t, a)
    ensures LockInv(AfterRequest(s, t, a))
  {
    LockMoved(s, AfterRequest(s, t, a), t);
  }

  lemma {:induction false} LockKeptBySubmit(s: State, t: nat, a: SubmitAction)
    requires LockInv(s) && SubmitEnabled(s, t, a)
    ensures LockInv(AfterSubmit(s, t, a))
  {
    LockMoved(s, AfterSubmit(s, t, a), t);
  }

  lemma {:induction false} LockKeptByClose(s: State, t: nat, a: CloseAction)
    requires LockInv(s) && CloseEnabled(s, t, a)
    ensures LockInv(AfterClose(s, t, a))
  {
    LockMoved(s, AfterClose(s, t, a), t);
  }

  lemma {:induction false} LockKeptByWork(s: State, a: WorkAction)
    requires LockInv(s) && WorkEnabled(s, a)
    ensures LockInv(AfterWork(s, a))
  {
    hide LockOk;
  }

  // Exchanges change hands in eight ways. Each of the next lemmas is one of them.

  /** A goroutine moves without gaining, losing or settling an exchange. */
  lemma {:induction false} Moved(s: State, s': State, t: nat)
    requires PlaceInv(s)
    requires t in s'.threads && s'.threads == s.threads[t := s'.threads[t]]
    requires HoldOf(s'.threads[t]) == if t in s.threads then HoldOf(s.threads[t]) else Nothing
    requires s'.place == s.place && s'.jobs == s.jobs && s'.worker == s.worker
    ensures PlaceInv(s')
  {
    hide HoldOf;
    forall e | e in s'.place ensures PlaceOk(s', e) {
      assert PlaceOk(s, e);
    }
  }

  lemma {:induction false} Admitted(s: State, s': State, t: nat, e: Id)
    requires PlaceInv(s)
    requires t in s.threads && t in s'.threads && s'.threads == s.threads[t := s'.threads[t]]
    requires HoldOf(s.threads[t]) == Nothing && HoldOf(s'.threads[t]) == Open(e)
    requires e !in s.place && s'.place == s.place[e := InRequest(t)]
    requires s'.jobs == s.jobs && s'.worker == s.worker
    ensures PlaceInv(s')
  {
    hide HoldOf;
    forall x | x in s'.place ensures PlaceOk(s', x) {
      assert x != e ==> PlaceOk(s, x);
    }
  }

  lemma {:induction false} Settled(s: State, s': State, t: nat, e: Id)
    requires PlaceInv(s)
    requires t in s.threads && t in s'.threads && s'.threads == s.threads[t := s'.threads[t]]
    requires HoldOf(s.threads[t]) == Open(e) && HoldOf(s'.threads[t]) == Decided(e)
    requires s'.place == s.place[e := Leaving(t)] && s'.jobs == s.jobs && s'.worker == s.worker
    ensures PlaceInv(s')
    ensures e in s.place && s.place[e] == InRequest(t)
  {
    hide HoldOf;
    assert OwnOk(s.place, t, HoldOf(s.threads[t]));
    forall x | x in s'.place ensures PlaceOk(s', x) {
      assert x != e ==> PlaceOk(s, x);
    }
  }

  lemma {:induction false} Freed(s: State, s': State, t: nat, e: Id)
    requires PlaceInv(s)
    requires t in s.threads && t in s'.threads && s'.threads == s.threads[t := s'.threads[t]]
    requires HoldOf(s.threads[t]) == Decided(e) && HoldOf(s'.threads[t]) == Nothing
    requires s'.place == s.place - {e} && s'.jobs == s.jobs && s'.worker == s.worker
    ensures PlaceInv(s')
    ensures e in s.place && s.place[e] == Leaving(t)
  {
    hide HoldOf;
    assert OwnOk(s.place, t, HoldOf(s.threads[t]));
    forall x | x in s'.place ensures PlaceOk(s', x) {
      assert PlaceOk(s, x);
    }
  }

  lemma {:induction false} Enqueued(s: State, s': State, t: nat, e: Id)
    requires PlaceInv(s)
    requires t in s.threads && t in s'.threads && s'.threads == s.threads[t := s'.threads[t]]
    requires HoldOf(s.threads[t]) == Open(e) && HoldOf(s'.threads[t]) == Nothing
    requires s'.place == s.place[e := Queued] && s'.jobs == s.jobs + [e] && s'.worker == s.worker
    ensures PlaceInv(s')
    ensures e in s.place && s.place[e] == InRequest(t)
  {
    hide HoldOf;
    assert OwnOk(s.place, t, HoldOf(s.threads[t]));
    assert s'.jobs[|s.jobs|] == e;
    forall x | x in s'.place ensures PlaceOk(s', x) {
      assert x != e ==> PlaceOk(s, x);
    }
  }

  lemma {:induction false} Taken(s: State, s': State, e: Id)
    requires PlaceInv(s)
    requires s.worker == Waiting && s.jobs != [] && e == s.jobs[0]
    requires s'.worker == Storing(e) && s'.jobs == s.jobs[1..] && s'.place == s.place[e := InWorker]
    requires s'.threads == s.threads
    ensures PlaceInv(s')
    ensures e in s.place && s.place[e] == Queued
  {
    hide HoldOf;
    forall x | x in s'.place ensures PlaceOk(s', x) {
      assert x != e ==> PlaceOk(s, x);
    }
  }

  lemma {:induction false} Counted(s: State, s': State, e: Id)
    requires PlaceInv(s)
    requires s.worker == Storing(e) && s'.worker == Stored(e) && s'.place == s.place[e := WorkerLeaving]
    requires s'.threads == s.threads && s'.jobs == s.jobs
    ensures PlaceInv(s')
    ensures e in s.place && s.place[e] == InWorker
  {
    hide HoldOf;
    forall x | x in s'.place ensures PlaceOk(s', x) {
      assert x != e ==> PlaceOk(s, x);
    }
  }

  lemma {:induction false} WorkerFreed(s: State, s': State, e: Id)
    requires PlaceInv(s)
    requires s.worker == Stored(e) && s'.worker == Waiting && s'.place == s.place - {e}
    requires s'.threads == s.threads && s'.jobs == s.jobs
    ensures PlaceInv(s')
    ensures e in s.place && s.place[e] == WorkerLeaving
  {
    hide HoldOf;
    forall x | x in s'.place ensures PlaceOk(s', x) {
      assert PlaceOk(s, x);
    }
  }

  // The slot count and the fates follow the places.

  lemma {:induction false} FateAdmit(slots: nat, admitted: nat, place: map<Id, Place>, fates: map<Id, Fate>, q: Place)
    requires FateOk(slots, admitted, place, fates) && slots < LIMIT && Undecided(q)
    ensures admitted !in place
    ensures FateOk(slots + 1, admitted + 1, place[admitted := q], fates)
  {
    assert place[admitted := q].Keys == place.Keys + {admitted};
  }

  lemma {:induction false} FateRehome(slots: nat, admitted: nat, place: map<Id, Place>, fates: map<Id, Fate>,
                                      e: Id, q: Place)
    requires FateOk(slots, admitted, place, fates)
    requires e in place && (Undecided(place[e]) <==> Undecided(q))
    ensures FateOk(slots, admitted, place[e := q], fates)
  {
    assert place[e := q].Keys == place.Keys;
  }

  lemma {:induction false} FateDecide(slots: nat, admitted: nat, place: map<Id, Place>, fates: map<Id, Fate>,
                                      e: Id, q: Place, f: Fate)
    requires FateOk(slots, admitted, place, fates)
    requires e in place && Undecided(place[e]) && !Undecided(q)
    ensures e !in fates
    ensures FateOk(slots, admitted, place[e := q], fates[e := f])
  {
    assert place[e := q].Keys == place.Keys;
  }

  lemma {:induction false} FateFree(slots: nat, admitted: nat, place: map<Id, Place>, fates: map<Id, Fate>, e: Id)
    requires FateOk(slots, admitted, place, fates)
    requires e in place && !Undecided(place[e])
    ensures slots > 0 && FateOk(slots - 1, admitted, place - {e}, fates)
  {
    assert (place - {e}).Keys == place.Keys - {e};
  }

  ghost predicate Consistent(s: State) {
    PlaceInv(s) && FateInv(s)
  }

  lemma {:induction false} ConsistentByTake(s: State, t: nat)
    requires Consistent(s) && RequestEnabled(s, t, BeginTake) && s.slots < LIMIT
    ensures Consistent(AfterRequest(s, t, BeginTake))
  {
    hide PlaceInv, FateOk;
    FateAdmit(s.slots, s.admitted, s.place, s.fates, InRequest(t));
    Admitted(s, AfterRequest(s, t, BeginTake), t, s.admitted);
  }

  lemma {:induction false} ConsistentByDiscard(s: State, t: nat, a: RequestAction)
    requires Consistent(s) && RequestEnabled(s, t, a) && (a.Discard? || a.Release?)
    ensures Consistent(AfterRequest(s, t, a))
  {
    hide PlaceInv, FateOk;
    var s', e := AfterRequest(s, t, a), s.threads[t].e;
    if a.Discard? {
      Settled(s, s', t, e);
      FateDecide(s.slots, s.admitted, s.place, s.fates, e, Leaving(t), if a.counted then Dropped else Aborted);
    } else {
      Freed(s, s', t, e);
      FateFree(s.slots, s.admitted, s.place, s.fates, e);
    }
  }

  lemma {:induction false} ConsistentByRequest(s: State, t: nat, a: RequestAction)
    requires Consistent(s) && RequestEnabled(s, t, a)
    ensures Consistent(AfterRequest(s, t, a))
  {
    hide PlaceInv, FateOk;
    if a.BeginTake? && s.slots < LIMIT {
      ConsistentByTake(s, t);
    } else if a.Discard? || a.Release? {
      ConsistentByDiscard(s, t, a);
    } else {
      Moved(s, AfterRequest(s, t, a), t);
    }
  }

  lemma {:induction false} ConsistentBySettle(s: State, s': State, t: nat, p: Thread)
    requires Consistent(s) && t in s.threads && HoldOf(s.threads[t]).Open? && HoldOf(p) == Decided(HoldOf(s.threads[t]).e)
    requires s' == Settle(s, t, HoldOf(s.threads[t]).e, Dropped, p)
    ensures Consistent(s')
  {
    hide PlaceInv, FateOk, HoldOf;
    var e := HoldOf(s.threads[t]).e;
    Settled(s, s', t, e);
    FateDecide(s.slots, s.admitted, s.place, s.fates, e, Leaving(t), Dropped);
  }

  lemma {:induction false} ConsistentBySend(s: State, t: nat)
    requires Consistent(s) && SubmitEnabled(s, t, SubmitSend)
    ensures Consistent(AfterSubmit(s, t, SubmitSend))
  {
    hide PlaceInv, FateOk;
    var s', e := AfterSubmit(s, t, SubmitSend), s.threads[t].e;
    if |s.jobs| < LIMIT {
      Enqueued(s, s', t, e);
      FateRehome(s.slots, s.admitted, s.place, s.fates, e, Queued);
    } else {
      ConsistentBySettle(s, s', t, SubmitRefused(e));
    }
  }

  lemma {:induction false} ConsistentByGiveUp(s: State, t: nat)
    requires Consistent(s) && SubmitEnabled(s, t, SubmitRelease)
    ensures Consistent(AfterSubmit(s, t, SubmitRelease))
  {
    hide PlaceInv, FateOk;
    var s', e := AfterSubmit(s, t, SubmitRelease), s.threads[t].e;
    Freed(s, s', t, e);
    FateFree(s.slots, s.admitted, s.place, s.fates, e);
  }

  lemma {:induction false} ConsistentBySubmit(s: State, t: nat, a: SubmitAction)
    requires Consistent(s) && SubmitEnabled(s, t, a)
    ensures Consistent(AfterSubmit(s, t, a))
  {
    hide PlaceInv, FateOk;
    match a
    case SubmitSend => ConsistentBySend(s, t);
    case SubmitRelease => ConsistentByGiveUp(s, t);
    case SubmitCheck(tooLarge) =>
      if s.closed || tooLarge {
        ConsistentBySettle(s, AfterSubmit(s, t, a), t, SubmitRefused(s.threads[t].e));
      } else {
        Moved(s, AfterSubmit(s, t, a), t);
      }
    case _ => Moved(s, AfterSubmit(s, t, a), t);
  }

  lemma {:induction false} ConsistentByClose(s: State, t: nat, a: CloseAction)
    requires Consistent(s) && CloseEnabled(s, t, a)
    ensures Consistent(AfterClose(s, t, a))
  {
    hide PlaceInv, FateOk;
    Moved(s, AfterClose(s, t, a), t);
  }

  lemma {:induction false} Stopped(s: State, s': State)
    requires PlaceInv(s) && s.worker == Waiting && s' == s.(worker := Finished)
    ensures PlaceInv(s')
  {
    hide HoldOf;
    forall x | x in s'.place ensures PlaceOk(s', x) {
      assert PlaceOk(s, x);
    }
  }

  lemma {:induction false} ConsistentByWork(s: State, a: WorkAction)
    requires Consistent(s) && WorkEnabled(s, a)
    ensures Consistent(AfterWork(s, a))
  {
    hide PlaceInv, FateOk;
    var s' := AfterWork(s, a);
    match a
    case Take =>
      Taken(s, s', s.jobs[0]);
      FateRehome(s.slots, s.admitted, s.place, s.fates, s.jobs[0], InWorker);
    case Store(f) =>
      Counted(s, s', s.worker.e);
      FateDecide(s.slots, s.admitted, s.place, s.fates, s.worker.e, WorkerLeaving, f);
    case GiveBack =>
      WorkerFreed(s, s', s.worker.e);
      FateFree(s.slots, s.admitted, s.place, s.fates, s.worker.e);
    case Stop =>
      Stopped(s, s');
  }

  /** One more fate is one more in one tally and no change in the others. */
  lemma {:induction false} CountDecide(c: Counters, fates: map<Id, Fate>, e: Id, f: Fate)
    requires CountOk(c, fates) && e !in fates
    ensures CountOk(Count(c, f), fates[e := f])
  {
    hide With;
    WithAfter(fates, e, f, Written);
    WithAfter(fates, e, f, Skipped);
    WithAfter(fates, e, f, Failed);
    WithAfter(fates, e, f, Dropped);
  }

  lemma {:induction false} WithAfter(fates: map<Id, Fate>, e: Id, f: Fate, g: Fate)
    requires e !in fates
    ensures |With(fates[e := f], g)| == |With(fates, g)| + if f == g then 1 else 0
  {
    assert With(fates[e := f], g) == With(fates, g) + if f == g then {e} else {};
  }

  lemma {:induction false} CountByRequest(s: State, t: nat, a: RequestAction)
    requires Consistent(s) && CountInv(s) && RequestEnabled(s, t, a)
    ensures CountInv(AfterRequest(s, t, a))
  {
    hide CountOk, PlaceInv, FateOk;
    if a.Discard? {
      UndecidedOwner(s, t);
      CountDecide(s.counters, s.fates, s.threads[t].e, if a.counted then Dropped else Aborted);
    } else {
      CountRefuse(s.counters, s.fates);
    }
  }

  lemma {:induction false} CountBySubmit(s: State, t: nat, a: SubmitAction)
    requires Consistent(s) && CountInv(s) && SubmitEnabled(s, t, a)
    ensures CountInv(AfterSubmit(s, t, a))
  {
    hide CountOk, PlaceInv, FateOk;
    if a.SubmitCheck? || a.SubmitSend? {
      UndecidedOwner(s, t);
      CountDecide(s.counters, s.fates, s.threads[t].e, Dropped);
    }
  }

  lemma {:induction false} CountByWork(s: State, a: WorkAction)
    requires Consistent(s) && CountInv(s) && WorkEnabled(s, a)
    ensures CountInv(AfterWork(s, a))
  {
    hide CountOk, PlaceInv, FateOk;
    if a.Store? {
      UndecidedWork(s);
      CountDecide(s.counters, s.fates, s.worker.e, a.fate);
    }
  }

  lemma {:induction false} CountRefuse(c: Counters, fates: map<Id, Fate>)
    requires CountOk(c, fates)
    ensures CountOk(c.(dropped := c.dropped + 1, refused := c.refused + 1), fates)
  {
  }

  lemma {:induction false} UndecidedOwner(s: State, t: nat)
    requires Consistent(s) && t in s.threads && HoldOf(s.threads[t]).Open?
    ensures HoldOf(s.threads[t]).e !in s.fates
  {
    hide HoldOf;
    assert OwnOk(s.place, t, HoldOf(s.threads[t]));
  }

  lemma {:induction false} UndecidedWork(s: State)
    requires Consistent(s) && s.worker.Storing?
    ensures s.worker.e !in s.fates
  {
  }

  lemma {:induction false} QueueByRequest(s: State, t: nat, a: RequestAction)
    requires Consistent(s) && QueueInv(s) && RequestEnabled(s, t, a)
    ensures QueueInv(AfterRequest(s, t, a))
  {
    hide PlaceInv, FateOk;
    if a.Discard? {
      UndecidedOwner(s, t);
    }
  }

  lemma {:induction false} QueueBySubmit(s: State, t: nat, a: SubmitAction)
    requires Consistent(s) && QueueInv(s) && SubmitEnabled(s, t, a)
    ensures QueueInv(AfterSubmit(s, t, a))
  {
    hide PlaceInv, FateOk;
    if a.SubmitCheck? || a.SubmitSend? {
      UndecidedOwner(s, t);
    }
  }

  lemma {:induction false} QueueByWork(s: State, a: WorkAction)
    requires Consistent(s) && QueueInv(s) && WorkEnabled(s, a)
    ensures QueueInv(AfterWork(s, a))
  {
    hide PlaceInv, FateOk;
    if a.Take? {
      assert s.stored + [] + s.jobs == s.stored + [s.jobs[0]] + s.jobs[1..];
    }
    if a.Store? {
      UndecidedWork(s);
    }
  }

  /** Every step keeps the invariant. */
  lemma {:induction false} InvKept(s: State, step: Step)
    requires Inv(s) && Enabled(s, step)
    ensures Inv(After(s, step))
  {
    hide LockInv, PlaceInv, FateOk, CountOk;
    match step
    case Request(t, a) => LockKeptByRequest(s, t, a); ConsistentByRequest(s, t, a); CountByRequest(s, t,
        a); QueueByRequest(s, t, a);
    case Submit(t, a) =>
      LockKeptBySubmit(s, t, a); ConsistentBySubmit(s, t, a); CountBySubmit(s, t, a); QueueBySubmit(s, t, a);
    case Close(t, a) => LockKeptByClose(s, t, a); ConsistentByClose(s, t, a);
    case Work(a) => LockKeptByWork(s, a); ConsistentByWork(s, a); CountByWork(s, a); QueueByWork(s, a);
  }

  // ---------------------------------------------------------------- whole runs

  /** The states of a run that takes the given steps from `s`. */
  ghost predicate IsRun(s: State, steps: seq<Step>)
    decreases |steps|
  {
    steps == [] || (Enabled(s, steps[0]) && IsRun(After(s, steps[0]), steps[1..]))
  }

  ghost function End(s: State, steps: seq<Step>): (s': State)
    requires IsRun(s, steps)
    decreases |steps|
  {
    if steps == [] then s else End(After(s, steps[0]), steps[1..])
  }

  lemma {:induction false} RunKeepsInv(s: State, steps: seq<Step>)
    requires Inv(s) && IsRun(s, steps)
    ensures Inv(End(s, steps))
    decreases |steps|
  {
    hide Inv, After, Enabled;
    if steps != [] {
      InvKept(s, steps[0]);
      RunKeepsInv(After(s, steps[0]), steps[1..]);
    }
  }

  ghost predicate Reachable(s: State) {
    exists steps :: IsRun(INIT, steps) && End(INIT, steps) == s
  }

  lemma {:induction false} ReachableInv(s: State)
    requires Reachable(s)
    ensures Inv(s)
  {
    InitInv();
    var steps :| IsRun(INIT, steps) && End(INIT, steps) == s;
    RunKeepsInv(INIT, steps);
  }

  /** Exchanges that requests hold: in the slot channel until the request submits or discards them. */
  function WithRequests(s: State): (es: set<Id>) {
    set e | e in s.place && (s.place[e].InRequest? || s.place[e].Leaving?)
  }

  function WithWorker(s: State): (es: set<Id>) {
    set e | e in s.place && (s.place[e].InWorker? || s.place[e].WorkerLeaving?)
  }

  function Elems(jobs: seq<Id>): (es: set<Id>) {
    set e | e in jobs
  }

  ghost predicate Holds(s: State, t: nat, e: Id) {
    t in s.threads && (HoldOf(s.threads[t]) == Open(e) || HoldOf(s.threads[t]) == Decided(e))
  }

  /** The token count: one for each exchange with a request, in the queue, or with the worker; at most 64. */
  lemma {:induction false} SlotsAccountedFor(s: State)
    requires Reachable(s)
    ensures s.slots == |WithRequests(s)| + |s.jobs| + |WithWorker(s)| <= 64
    ensures |WithWorker(s)| <= 1
    ensures forall e :: e in WithRequests(s) <==> exists t :: Holds(s, t, e)
  {
    hide PlaceInv, Reachable, LockInv, CountOk, QueueInv;
    ReachableInv(s);
    DistinctCount(s);
    WorkerHoldsOne(s);
    PlacesPartition(s);
    RequestsHold(s);
  }

  lemma {:induction false} RequestsHold(s: State)
    requires PlaceInv(s)
    ensures forall e :: e in WithRequests(s) <==> exists t :: Holds(s, t, e)
  {
    forall e | e in WithRequests(s) ensures exists t :: Holds(s, t, e) {
      assert PlaceOk(s, e);
      assert Holds(s, s.place[e].t, e);
    }
    forall e, t | Holds(s, t, e) ensures e in WithRequests(s) {
      assert OwnOk(s.place, t, HoldOf(s.threads[t]));
    }
  }

  /** No exchange is with two goroutines. */
  lemma {:induction false} OneHolder(s: State, t: nat, u: nat, e: Id)
    requires Reachable(s) && Holds(s, t, e) && Holds(s, u, e)
    ensures t == u && e !in s.jobs && s.worker != Storing(e) && s.worker != Stored(e)
  {
    ReachableInv(s);
    assert OwnOk(s.place, t, HoldOf(s.threads[t])) && OwnOk(s.place, u, HoldOf(s.threads[u]));
  }

  lemma {:induction false} Sum3(all: set<Id>, a: set<Id>, b: set<Id>, c: set<Id>)
    requires all == a + b + c && a !! b && a !! c && b !! c
    ensures |all| == |a| + |b| + |c|
  {
    assert a + b !! c;
  }

  lemma {:induction false} PlacesPartition(s: State)
    requires PlaceInv(s)
    ensures |s.place.Keys| == |WithRequests(s)| + |Elems(s.jobs)| + |WithWorker(s)|
  {
    hide HoldOf;
    forall e | e in s.place && s.place[e] == Queued ensures e in Elems(s.jobs) {
      assert PlaceOk(s, e);
    }
    Sum3(s.place.Keys, WithRequests(s), Elems(s.jobs), WithWorker(s));
  }

  lemma {:induction false} SubsetSize(a: set<Id>, b: set<Id>)
    requires a <= b
    ensures |a| <= |b|
  {
    assert b == a + (b - a);
  }

  lemma {:induction false} WorkerHoldsOne(s: State)
    requires PlaceInv(s)
    ensures |WithWorker(s)| <= 1
  {
    var held := if s.worker.Storing? || s.worker.Stored? then {s.worker.e} else {};
    forall e | e in WithWorker(s) ensures e in held {
      assert PlaceOk(s, e);
    }
    SubsetSize(WithWorker(s), held);
  }

  lemma {:induction false} DistinctCount(s: State)
    requires PlaceInv(s)
    ensures |Elems(s.jobs)| == |s.jobs|
  {
    DistinctSize(s.jobs);
  }

  lemma {:induction false} DistinctSize(jobs: seq<Id>)
    requires forall i, j :: 0 <= i < j < |jobs| ==> jobs[i] != jobs[j]
    ensures |Elems(jobs)| == |jobs|
    decreases |jobs|
  {
    if jobs == [] {
      assert Elems(jobs) == {};
    } else {
      DistinctSize(jobs[1..]);
      assert jobs[0] !in jobs[1..];
      assert jobs == [jobs[0]] + jobs[1..];
      assert Elems(jobs) == Elems(jobs[1..]) + {jobs[0]};
    }
  }

  /** The queue-full branch of submit is dead: whoever reaches the send finds room, because it still holds a
      slot of its own; and the channel it sends on is open. */
  lemma {:induction false} SubmitAlwaysQueues(s: State, t: nat)
    requires Reachable(s)
    requires t in s.threads && s.threads[t].SubmitOpen?
    ensures |s.jobs| < LIMIT
    ensures !s.jobsClosed && !s.closed
  {
    SlotsAccountedFor(s);
    ReachableInv(s);
    assert LockOk(s.lock, s.closed, s.jobsClosed, t, s.threads[t]);
    assert Holds(s, t, s.threads[t].e);
    assert s.threads[t].e in WithRequests(s);
  }

  /** Giving a slot back never blocks, for a request as for the worker. */
  lemma {:induction false} DiscardNeverBlocks(s: State)
    requires Reachable(s)
    ensures forall t :: t in s.threads && HoldOf(s.threads[t]) != Nothing ==> s.slots > 0
    ensures s.worker.Stored? ==> s.slots > 0
  {
    ReachableInv(s);
    forall t | t in s.threads && HoldOf(s.threads[t]) != Nothing ensures s.slots > 0 {
      assert OwnOk(s.place, t, HoldOf(s.threads[t]));
      assert HoldOf(s.threads[t]).e in s.place.Keys;
    }
    if s.worker.Stored? {
      assert s.worker.e in s.place.Keys;
    }
  }

  /** The job channel is closed at most once. */
  lemma {:induction false} JobsClosedOnce(s: State, t: nat)
    requires Reachable(s)
    requires t in s.threads && s.threads[t].CloseMarked?
    ensures !s.jobsClosed && s.closed
  {
    ReachableInv(s);
    assert LockOk(s.lock, s.closed, s.jobsClosed, t, s.threads[t]);
  }

  /** Exchanges without a fate, still with their request. */
  function InFlight(s: State): (es: set<Id>) {
    set e | e in s.place && s.place[e].InRequest?
  }

  function Active(s: State): (es: set<Id>) {
    if s.worker.Storing? then {s.worker.e} else {}
  }

  /** Conservation: every admitted exchange is in flight, queued, being stored, or counted exactly once. */
  lemma {:induction false} Conservation(s: State)
    requires Reachable(s)
    ensures var c := s.counters;
            s.admitted == |InFlight(s)| + |s.jobs| + |Active(s)|
                          + c.written + c.skipped + c.failed + (c.dropped - c.refused)
                          + |With(s.fates, Aborted)|
    ensures forall e: Id :: e in s.fates <==>
              e < s.admitted && e !in InFlight(s) && e !in Elems(s.jobs) && e !in Active(s)
  {
    hide PlaceInv, Reachable, LockInv, FateOk, QueueInv, With, Active, InFlight, Elems;
    ReachableInv(s);
    DistinctCount(s);
    FatesPartition(s.fates);
    PendingFates(s);
    PendingApart(s);
    SplitBelow(s.admitted, s.fates.Keys, InFlight(s), Elems(s.jobs), Active(s));
  }

  lemma {:induction false} SplitBelow(n: nat, decided: set<Id>, a: set<Id>, b: set<Id>, c: set<Id>)
    requires forall e: Id :: e in decided <==> e < n && e !in a && e !in b && e !in c
    requires forall e :: e in a || e in b || e in c ==> e < n
    requires a !! b && a !! c && b !! c
    ensures n == |a| + |b| + |c| + |decided|
  {
    hide Below;
    var pending := a + b + c;
    Sum3(pending, a, b, c);
    Sum3(Below(n), pending, decided, {});
  }

  lemma {:induction false} PendingFates(s: State)
    requires PlaceInv(s) && FateInv(s)
    ensures forall e: Id :: e in s.fates <==>
              e < s.admitted && e !in InFlight(s) && e !in Elems(s.jobs) && e !in Active(s)
    ensures forall e :: e in InFlight(s) || e in Elems(s.jobs) || e in Active(s) ==> e < s.admitted
  {
    hide HoldOf;
    forall e: Id
      ensures e in s.fates <==> e < s.admitted && e !in InFlight(s) && e !in Elems(s.jobs) && e !in Active(s)
    {
      if e in s.place {
        assert PlaceOk(s, e);
      }
    }
  }

  lemma {:induction false} PendingApart(s: State)
    requires PlaceInv(s)
    ensures InFlight(s) !! Elems(s.jobs) && InFlight(s) !! Active(s) && Elems(s.jobs) !! Active(s)
  {
    hide HoldOf;
  }

  lemma {:induction false} FatesPartition(fates: map<Id, Fate>)
    ensures |fates.Keys| == |With(fates, Written)| + |With(fates, Skipped)| + |With(fates, Failed)|
                            + |With(fates, Dropped)| + |With(fates, Aborted)|
  {
    hide With;
    var w, k, f := With(fates, Written), With(fates, Skipped), With(fates, Failed);
    var d, a := With(fates, Dropped), With(fates, Aborted);
    FatesCovered(fates);
    Sum3(w + k + f, w, k, f);
    Sum3(fates.Keys, w + k + f, d, a);
  }

  lemma {:induction false} FatesCovered(fates: map<Id, Fate>)
    ensures forall f, g :: f != g ==> With(fates, f) !! With(fates, g)
    ensures fates.Keys == With(fates, Written) + With(fates, Skipped) + With(fates, Failed)
                          + With(fates, Dropped) + With(fates, Aborted)
  {
  }

  function Below(n: nat): (es: set<Id>)
    ensures |es| == n
    ensures forall e: Id :: e in es <==> e < n
  {
    if n == 0 then {} else Below(n - 1) + {n - 1}
  }

  /** When the worker stops, and `close` can return, everything ever queued has been stored or rejected by the
      database, in the order in which it was queued. */
  lemma {:induction false} CloseDrains(s: State)
    requires Reachable(s) && s.worker == Finished
    ensures s.stored == s.queued
    ensures forall i :: 0 <= i < |s.queued| ==> s.queued[i] in s.fates && ByDatabase(s.fates[s.queued[i]])
    ensures s.jobs == [] && s.jobsClosed
  {
    ReachableInv(s);
  }
}
