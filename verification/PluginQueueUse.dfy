/** plugin.go: what begin, submit, discard, close and the worker do to the queue, in reachable states and over runs. */
module PluginQueueUse {
  import opened PluginQueue

  /** `step` can be made, and leads to `s'`. */
  ghost predicate Acts(s: State, step: Step, s': State) {
    Enabled(s, step) && After(s, step) == s'
  }

  predicate Stands(s: State, t: nat, p: Thread) {
    t in s.threads && s.threads[t] == p
  }

  function Standing(s: State, t: nat, p: Thread): (s': State) {
    s.(threads := s.threads[t := p])
  }

  /** The 64 slots are not all taken: by requests, in the queue, or by the worker. */
  predicate HasRoom(s: State) {
    |WithRequests(s)| + |s.jobs| + |WithWorker(s)| < 64
  }

  function Dropping(s: State, early: bool): (s': State) {
    s.(counters := s.counters.(dropped := s.counters.dropped + 1, refused := s.counters.refused + if early then 1 else 0))
  }

  // ---------------------------------------------------------------- begin

  /** begin admits an exchange if and only if a slot is free, and otherwise counts it as dropped. */
  lemma {:induction false} AdmitsWhenFree(s: State, t: nat)
    requires Reachable(s) && Stands(s, t, BeginOpen)
    ensures HasRoom(s) ==>
              Acts(s, Request(t, BeginTake),
                   Standing(s, t, BeginDone(s.admitted)).(slots := s.slots + 1, admitted := s.admitted + 1,
                                                          place := s.place[s.admitted := InRequest(t)]))
    ensures !HasRoom(s) ==> Acts(s, Request(t, BeginTake), Dropping(Standing(s, t, BeginRefused), true))
  {
    hide Reachable;
    SlotsAccountedFor(s);
  }

  /** Before that: nothing when the writer is closed, a drop when the header is too long. */
  lemma {:induction false} BeginChecks(s: State, t: nat, tooLong: bool)
    requires Stands(s, t, BeginLocked)
    ensures Acts(s, Request(t, BeginCheck(tooLong)),
                 if s.closed then Standing(s, t, BeginRefused)
                 else if tooLong then Dropping(Standing(s, t, BeginRefused), true)
                 else Standing(s, t, BeginOpen))
  {
  }

  /** An admitted exchange belongs to the request from then on. */
  lemma {:induction false} BeginHandsOver(s: State, t: nat, e: Id)
    ensures Stands(s, t, BeginDone(e)) ==>
              Acts(s, Request(t, BeginUnlock),
                   Standing(s, t, Held(e)).(lock := s.lock.(readers := s.lock.readers - {t})))
    ensures Stands(s, t, BeginRefused) ==>
              Acts(s, Request(t, BeginUnlock), Standing(s, t, Idle).(lock := s.lock.(readers := s.lock.readers - {t})))
  {
  }

  // ---------------------------------------------------------------- submit and discard

  /** submit queues an exchange if and only if the writer is open and both bodies fit; otherwise it is counted as dropped
      and its slot is given back. */
  lemma {:induction false} SubmitDecides(s: State, t: nat, e: Id, tooLarge: bool)
    requires Reachable(s) && Stands(s, t, SubmitLocked(e))
    ensures s.slots > 0
    ensures if !s.closed && !tooLarge then
              var s1 := Standing(s, t, SubmitOpen(e));
              Acts(s, Submit(t, SubmitCheck(tooLarge)), s1) &&
              Acts(s1, Submit(t, SubmitSend),
                   Standing(s1, t, SubmitDone).(jobs := s.jobs + [e], queued := s.queued + [e], place := s.place[e := Queued]))
            else
              var s1 := Dropping(Standing(s, t, SubmitRefused(e)), false).(
                          fates := s.fates[e := Dropped], place := s.place[e := Leaving(t)]);
              Acts(s, Submit(t, SubmitCheck(tooLarge)), s1) &&
              Acts(s1, Submit(t, SubmitRelease), Standing(s1, t, SubmitDone).(slots := s.slots - 1, place := s1.place - {e}))
  {
    var reached := Standing(s, t, SubmitOpen(e));
    if !s.closed && !tooLarge {
      CheckKeepsReachable(s, Submit(t, SubmitCheck(tooLarge)), reached);
      SubmitAlwaysQueues(reached, t);
    }
    HasSlot(s, t);
  }

  lemma {:induction false} HasSlot(s: State, t: nat)
    requires Reachable(s) && t in s.threads && HoldOf(s.threads[t]) != Nothing
    ensures s.slots > 0
  {
    hide Reachable;
    DiscardNeverBlocks(s);
  }

  lemma {:induction false} CheckKeepsReachable(s: State, step: Step, s': State)
    requires Reachable(s) && Acts(s, step, s')
    ensures Reachable(s')
  {
    hide Acts, Enabled, After;
    var steps :| IsRun(INIT, steps) && End(INIT, steps) == s;
    assert Enabled(s, step) && After(s, step) == s' by { ActsMeans(s, step, s'); }
    RunExtends(INIT, steps, step);
  }

  lemma {:induction false} ActsMeans(s: State, step: Step, s': State)
    requires Acts(s, step, s')
    ensures Enabled(s, step) && After(s, step) == s'
  {
  }

  lemma {:induction false} RunExtends(s: State, steps: seq<Step>, step: Step)
    requires IsRun(s, steps) && Enabled(End(s, steps), step)
    ensures IsRun(s, steps + [step]) && End(s, steps + [step]) == After(End(s, steps), step)
    decreases |steps|
  {
    hide Enabled, After;
    if steps == [] {
      assert [] + [step] == [step] && [step][1..] == [];
    } else {
      RunExtends(After(s, steps[0]), steps[1..], step);
      assert (steps + [step])[1..] == steps[1..] + [step];
    }
  }

  /** discard gives the slot back; only an oversized response header is counted. */
  lemma {:induction false} Discards(s: State, t: nat, e: Id, counted: bool)
    requires Reachable(s) && Stands(s, t, Held(e))
    ensures s.slots > 0
    ensures var s0 := Standing(s, t, Releasing(e)).(fates := s.fates[e := if counted then Dropped else Aborted],
                                                    place := s.place[e := Leaving(t)]);
            var s1 := if counted then Dropping(s0, false) else s0;
            Acts(s, Request(t, Discard(counted)), s1) &&
            Acts(s1, Request(t, Release), Standing(s1, t, Idle).(slots := s.slots - 1, place := s1.place - {e}))
  {
    hide Reachable;
    HasSlot(s, t);
  }

  // ---------------------------------------------------------------- the worker and close

  /** The worker takes the oldest exchange, counts what became of it, and gives its slot back. */
  lemma {:induction false} WorkerStores(s: State, fate: Fate)
    requires Reachable(s) && s.worker == Waiting && s.jobs != [] &&
             (fate == Written || fate == Skipped || fate == PluginQueue.Failed)
    ensures s.slots > 0
    ensures var e, c := s.jobs[0], s.counters;
            var s1 := s.(worker := Storing(e), jobs := s.jobs[1..], place := s.place[e := InWorker]);
            var s2 := s1.(worker := Stored(e), stored := s.stored + [e], fates := s.fates[e := fate],
                          place := s1.place[e := WorkerLeaving],
                          counters := c.(written := c.written + (if fate == Written then 1 else 0),
                                         skipped := c.skipped + (if fate == Skipped then 1 else 0),
                                         failed := c.failed + (if fate == PluginQueue.Failed then 1 else 0)));
            Acts(s, Work(Take), s1) && Acts(s1, Work(Store(fate)), s2) &&
            Acts(s2, Work(GiveBack), s2.(worker := Waiting, slots := s.slots - 1, place := s2.place - {e}))
  {
    hide Reachable;
    QueueHasSlots(s);
  }

  lemma {:induction false} QueueHasSlots(s: State)
    requires Reachable(s) && s.jobs != []
    ensures s.slots > 0
  {
    hide Reachable;
    SlotsAccountedFor(s);
  }

  /** The worker is idle only when nothing is queued, and it stops exactly when, besides, the queue is closed. */
  lemma {:induction false} WorkerGoesOn(s: State)
    requires Reachable(s)
    ensures s.worker == Finished || (s.worker == Waiting && s.jobs == [] && !s.jobsClosed) || exists a :: Enabled(s, Work(a))
    ensures Enabled(s, Work(Stop)) <==> s.worker == Waiting && s.jobs == [] && s.jobsClosed
  {
    hide Reachable;
    DiscardNeverBlocks(s);
    if s.worker.Storing? { assert Enabled(s, Work(Store(Written))); }
    else if s.worker.Stored? { assert Enabled(s, Work(GiveBack)); }
    else if s.worker == Waiting && s.jobs != [] { assert Enabled(s, Work(Take)); }
    else if s.worker == Waiting && s.jobsClosed { assert Enabled(s, Work(Stop)); }
  }

  /** close marks the writer as closed, closes the queue if nobody has, and returns when the worker has finished. */
  lemma {:induction false} Closes(s: State, t: nat)
    ensures Stands(s, t, Idle) && s.lock == Lock({}, {}) ==>
              Acts(s, Close(t, CloseLock), Standing(s, t, CloseLocked).(lock := Lock({}, {t})))
    ensures Stands(s, t, CloseLocked) ==>
              Acts(s, Close(t, CloseMark),
                   if s.closed then Standing(s, t, CloseUnlocking) else Standing(s, t, CloseMarked).(closed := true))
    ensures Stands(s, t, CloseMarked) ==>
              Acts(s, Close(t, CloseJobs), Standing(s, t, CloseUnlocking).(jobsClosed := true))
    ensures Stands(s, t, CloseUnlocking) ==>
              Acts(s, Close(t, CloseUnlock), Standing(s, t, CloseWaiting).(lock := Lock({}, {})))
    ensures Stands(s, t, CloseWaiting) ==> (Enabled(s, Close(t, CloseReturn)) <==> s.worker == Finished)
  {
  }

  /** The lock: begin and submit wait for a closer only, and a closer waits for all of them. */
  lemma {:induction false} Locks(s: State, t: nat, e: Id)
    ensures Stands(s, t, Idle) ==>
              (Enabled(s, Request(t, BeginLock)) <==> s.lock.writer == {}) &&
              (Enabled(s, Close(t, CloseLock)) <==> s.lock.writer == {} && s.lock.readers == {})
    ensures Stands(s, t, Held(e)) ==> (Enabled(s, Submit(t, SubmitLock)) <==> s.lock.writer == {})
    ensures Stands(s, t, Idle) && s.lock.writer == {} ==>
              Acts(s, Request(t, BeginLock), Standing(s, t, BeginLocked).(lock := s.lock.(readers := s.lock.readers + {t})))
    ensures Stands(s, t, Held(e)) && s.lock.writer == {} ==>
              Acts(s, Submit(t, SubmitLock), Standing(s, t, SubmitLocked(e)).(lock := s.lock.(readers := s.lock.readers + {t})))
    ensures Stands(s, t, SubmitDone) ==>
              Acts(s, Submit(t, SubmitUnlock), Standing(s, t, Idle).(lock := s.lock.(readers := s.lock.readers - {t})))
  {
  }

  // ---------------------------------------------------------------- whole runs

  /** begin refuses: a header that is too long, or no slot free. */
  predicate Refuses(s: State, step: Step) {
    match step
    case Request(t, BeginCheck(tooLong)) => tooLong && !s.closed
    case Request(t, BeginTake) => s.slots >= 64
    case _ => false
  }

  predicate Admits(s: State, step: Step) {
    step.Request? && step.r == BeginTake && s.slots < 64
  }

  /** How many steps of a run are of some kind. */
  ghost function Occurs(kind: (State, Step) -> bool, s: State, steps: seq<Step>): (n: nat)
    requires IsRun(s, steps)
    decreases |steps|
  {
    if steps == [] then 0 else (if kind(s, steps[0]) then 1 else 0) + Occurs(kind, After(s, steps[0]), steps[1..])
  }

  /** The counters after a step. */
  predicate Counted(s: State, step: Step, s': State) {
    var c, c' := s.counters, s'.counters;
    c'.refused == c.refused + (if Refuses(s, step) then 1 else 0) &&
    s'.admitted == s.admitted + (if Admits(s, step) then 1 else 0) &&
    c'.written == c.written + (if step == Work(Store(Written)) then 1 else 0) &&
    c'.skipped == c.skipped + (if step == Work(Store(Skipped)) then 1 else 0) &&
    c'.failed == c.failed + if step == Work(Store(PluginQueue.Failed)) then 1 else 0
  }

  lemma {:induction false} CountedByRequest(s: State, t: nat, a: RequestAction)
    requires RequestEnabled(s, t, a)
    ensures Counted(s, Request(t, a), AfterRequest(s, t, a))
  {
  }

  lemma {:induction false} CountedBySubmit(s: State, t: nat, a: SubmitAction)
    requires SubmitEnabled(s, t, a)
    ensures Counted(s, Submit(t, a), AfterSubmit(s, t, a))
  {
  }

  lemma {:induction false} CountedByOthers(s: State, step: Step)
    requires Enabled(s, step) && (step.Close? || step.Work?)
    ensures Counted(s, step, After(s, step))
  {
  }

  lemma {:induction false} CountedStep(s: State, step: Step)
    requires Enabled(s, step)
    ensures Counted(s, step, After(s, step))
  {
    hide RequestEnabled, SubmitEnabled, CloseEnabled, WorkEnabled, AfterRequest, AfterSubmit, AfterClose, AfterWork, Counted;
    match step
    case Request(t, a) => CountedByRequest(s, t, a);
    case Submit(t, a) => CountedBySubmit(s, t, a);
    case _ => CountedByOthers(s, step);
  }

  /** Over every run the counters say what happened: an exchange is refused before admission only for its header or for
      want of a slot, and each of the three other counters counts what the database did. */
  lemma {:induction false} CountersTell(s: State, steps: seq<Step>)
    requires IsRun(s, steps)
    ensures var c, c' := s.counters, End(s, steps).counters;
            c'.refused == c.refused + Occurs(Refuses, s, steps) &&
            End(s, steps).admitted == s.admitted + Occurs(Admits, s, steps) &&
            c'.written == c.written + Occurs((r: State, a: Step) => a == Work(Store(Written)), s, steps) &&
            c'.skipped == c.skipped + Occurs((r: State, a: Step) => a == Work(Store(Skipped)), s, steps) &&
            c'.failed == c.failed + Occurs((r: State, a: Step) => a == Work(Store(PluginQueue.Failed)), s, steps)
    decreases |steps|
  {
    hide Enabled, After, Refuses, Admits;
    if steps != [] {
      CountedStep(s, steps[0]);
      CountersTell(After(s, steps[0]), steps[1..]);
    }
  }

  /** Refusals for want of a slot happen only with 64 exchanges alive. */
  lemma {:induction false} RefusalMeansFull(s: State, t: nat)
    requires Reachable(s) && Stands(s, t, BeginOpen)
    ensures Refuses(s, Request(t, BeginTake)) <==> !HasRoom(s)
    ensures Admits(s, Request(t, BeginTake)) <==> HasRoom(s)
  {
    hide Reachable;
    SlotsAccountedFor(s);
  }

  // ---------------------------------------------------------------- a run

  const ONE: seq<Step> := [
    Request(0, Spawn), Request(0, BeginLock), Request(0, BeginCheck(false)), Request(0, BeginTake), Request(0, BeginUnlock),
    Submit(0, SubmitLock), Submit(0, SubmitCheck(false)), Submit(0, SubmitSend), Submit(0, SubmitUnlock),
    Work(Take), Work(Store(Written)), Work(GiveBack)]

  /** The states of that run, up to the end of begin. */
  function Begun(p: Thread, reading: bool): (s: State) {
    INIT.(threads := map[0 := p], lock := Lock(if reading then {0} else {}, {}))
  }

  /** And from the admission of its exchange on. */
  function Going(p: Thread, reading: bool, at: Place, queued: seq<Id>): (s: State) {
    Begun(p, reading).(slots := 1, admitted := 1, place := map[0 := at], queued := queued,
                       jobs := if at == Queued then [0] else [])
  }

  const COUNTED: State := Going(Idle, false, WorkerLeaving, [0]).(
    worker := Stored(0), stored := [0], fates := map[0 := Written], counters := Counters(1, 0, 0, 0, 0))

  function At(i: nat): (s: State) {
    match i
    case 0 => INIT
    case 1 => Begun(Idle, false)
    case 2 => Begun(BeginLocked, true)
    case 3 => Begun(BeginOpen, true)
    case 4 => Going(BeginDone(0), true, InRequest(0), [])
    case 5 => Going(Held(0), false, InRequest(0), [])
    case 6 => Going(SubmitLocked(0), true, InRequest(0), [])
    case 7 => Going(SubmitOpen(0), true, InRequest(0), [])
    case 8 => Going(SubmitDone, true, Queued, [0])
    case 9 => Going(Idle, false, Queued, [0])
    case 10 => Going(Idle, false, InWorker, [0]).(worker := Storing(0))
    case 11 => COUNTED
    case _ => COUNTED.(worker := Waiting, slots := 0, place := map[])
  }

  lemma {:induction false} Begins(i: nat)
    requires i < 5
    ensures Acts(At(i), ONE[i], At(i + 1))
  {
    assert map[][0 := Idle] == map[0 := Idle];
    assert {0} - {0} == {} && {} + {0} == {0};
    assert map[][0 := InRequest(0)] == map[0 := InRequest(0)];
    ThreadMoves(if i == 1 then Idle else if i == 2 then BeginLocked else if i == 3 then BeginOpen else BeginDone(0));
  }

  lemma {:induction false} ThreadMoves(p: Thread)
    ensures forall q: Thread :: map[0 := p][0 := q] == map[0 := q]
  {
  }

  lemma {:induction false} Submits(i: nat)
    requires 5 <= i < 9
    ensures Acts(At(i), ONE[i], At(i + 1))
  {
    assert {0} - {0} == {} && {} + {0} == {0};
    assert [] + [0] == [0];
    assert map[0 := InRequest(0)][0 := Queued] == map[0 := Queued];
    ThreadMoves(if i == 5 then Held(0) else if i == 6 then SubmitLocked(0) else if i == 7 then SubmitOpen(0) else SubmitDone);
  }

  lemma {:induction false} Works(i: nat)
    requires 9 <= i < 12
    ensures Acts(At(i), ONE[i], At(i + 1))
  {
    assert [] + [0] == [0] && [0][1..] == [];
    assert map[0 := Queued][0 := InWorker] == map[0 := InWorker];
    assert map[0 := InWorker][0 := WorkerLeaving] == map[0 := WorkerLeaving];
    assert map[][0 := Written] == map[0 := Written];
    assert map[0 := WorkerLeaving] - {0} == map[];
  }

  lemma {:induction false} ActsAt(i: nat)
    requires i < 12
    ensures Acts(At(i), ONE[i], At(i + 1))
  {
    hide Acts, At;
    if i < 5 { Begins(i); } else if i < 9 { Submits(i); } else { Works(i); }
  }

  lemma {:induction false} RestOfRun(i: nat)
    requires i <= 12
    ensures IsRun(At(i), ONE[i..]) && End(At(i), ONE[i..]) == At(12)
    decreases 12 - i
  {
    hide Enabled, After, At;
    if i < 12 {
      ActsAt(i);
      ActsMeans(At(i), ONE[i], At(i + 1));
      RestOfRun(i + 1);
      assert ONE[i..][0] == ONE[i] && ONE[i..][1..] == ONE[i + 1..];
    } else {
      assert ONE[12..] == [];
    }
  }

  /** One exchange is admitted, queued, stored and counted as written. */
  lemma {:induction false} OneExchange()
    ensures IsRun(INIT, ONE)
    ensures var s := End(INIT, ONE);
            s.counters == Counters(1, 0, 0, 0, 0) && s.admitted == 1 && s.queued == [0] && s.stored == [0] && s.jobs == [] &&
            s.slots == 0 && s.worker == Waiting
  {
    hide IsRun, End;
    RestOfRun(0);
    assert ONE[0..] == ONE;
  }
}
