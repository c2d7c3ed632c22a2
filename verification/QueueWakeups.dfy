/** Condition-variable wakeups: with at most one finisher asleep when the worker signals, no enqueue is ever missed, and
    exactly when the signal of a queue release is heard. */
module QueueWakeups {
  import opened Basics
  import opened QueueCore
  import opened QueueMachine
  import opened QueueInvariants
  import opened QueueTheorems

  predicate Busy(q: Core) { q.queued != [] || q.submitted.Some? || q.running.Some? }

  /** At most one client sleeps in finish. */
  ghost predicate OneBlocked(s: State) {
    forall c, d :: c in s.cl && d in s.cl && s.cl[c].FnSleep? && s.cl[d].FnSleep? ==> c == d
  }

  /** Where the worker signals the finishers there is at most one. */
  ghost predicate SignalsOne(s: State) { s.wpc == WSigQ ==> OneBlocked(s) }

  ghost predicate NoneBlocked(s: State) { forall c :: c in s.cl ==> !s.cl[c].FnSleep? }

  predicate EnqueuerSignals(s: State) {
    MQ in s.owner && s.owner[MQ].Client? && s.owner[MQ].id in s.cl && s.cl[s.owner[MQ].id].EnqSig?
  }

  ghost predicate WakeInv(s: State) {
    && (s.wpc == WWait || s.wpc == WSleep ==> NoneBlocked(s))
    && (s.wpc == WSleep && s.q.queued != [] ==> EnqueuerSignals(s))
    && (forall c :: c in s.cl && s.cl[c].FnWait? ==> Busy(s.q))
  }

  /** The queue and the slots change only under the queue mutex. */
  lemma {:induction false} HeldFreezesQueue(s: State, a: Action, t: Thread)
    requires LockInv(s) && Enabled(s, a) && Holds(s, t, MQ) && !(a.Do? && a.t == t)
    ensures var q, q' := s.q, Step(s, a).q;
      q'.queued == q.queued && q'.submitted == q.submitted && q'.running == q.running
  {
    if a.Do? {
      assert !Holds(s, a.t, MQ);
      if InstrOf(s, a.t) != Data { DoQuiet(s, a.t, a.wakes); }
    }
  }

  /** A client falls asleep in finish only from its wait, with something in the queue. */
  lemma {:induction false} WaitWhileAsleepImpossible(s: State, c: nat)
    requires Inv(s) && WakeInv(s) && c in s.cl && s.cl[c].FnWait?
    ensures s.wpc != WWait && s.wpc != WSleep
  {
    assert Holds(s, Client(c), MQ);
    assert !Holds(s, Worker, MQ);
    assert s.wpc == WSleep ==> EnqueuerSignals(s);
  }

  /** The worker's signal to the finishers leaves none asleep exactly when at most one was. */
  lemma {:induction false} SignalClearsBlocked(s: State, wakes: Option<Thread>)
    requires s.wpc == WSigQ && CanDo(s, Worker, wakes)
    ensures NoneBlocked(DoStep(s, Worker, wakes)) <==> OneBlocked(s)
  {
    var s' := DoStep(s, Worker, wakes);
    assert forall c :: c in s.cl && s.cl[c].FnSleep? ==> Asleep(s, Client(c), MQ);
    forall c | c in s.cl && s.cl[c].FnSleep? ensures c in s'.cl && (s'.cl[c].FnSleep? <==> wakes != Some(Client(c))) {
    }
    forall c | c in s'.cl && s'.cl[c].FnSleep? ensures c in s.cl && s.cl[c].FnSleep? {
    }
  }

  lemma {:induction false} SignalStep(s: State, a: Action)
    requires s.wpc == WSigQ && OneBlocked(s) && Enabled(s, a) && a.Do? && a.t == Worker
    ensures NoneBlocked(Step(s, a))
  {
    hide CanDo, DoStep, OneBlocked, NoneBlocked;
    SignalClearsBlocked(s, a.wakes);
  }

  /** With the worker asleep or about to be, no client falls asleep in finish. */
  lemma {:induction false} StaysUnblocked(s: State, a: Action, c: nat)
    requires Inv(s) && WakeInv(s) && Enabled(s, a) && (s.wpc == WWait || s.wpc == WSleep) && c in s.cl
    ensures c in Step(s, a).cl && !Step(s, a).cl[c].FnSleep?
  {
    hide Inv, Enabled, Step, CInstr;
    StepKeepsClients(s, a);
    assert !s.cl[c].FnSleep?;
    if !ActsFor(a, c) {
      SleepersDoNotBlock(s.cl[c]);
      BystanderPc(s, a, c);
    } else if Step(s, a).cl[c].FnSleep? {
      SleepFromWait(s, a, c);
      WaitWhileAsleepImpossible(s, c);
    }
  }

  lemma {:induction false} SleepersDoNotBlock(p: CPc)
    ensures CInstr(p).Sleep? ==> !CNext(p).FnSleep?
  {
  }

  lemma {:induction false} NoneBlockedStep(s: State, a: Action)
    requires Inv(s) && WakeInv(s) && SignalsOne(s) && Enabled(s, a)
    requires Step(s, a).wpc == WWait || Step(s, a).wpc == WSleep
    ensures NoneBlocked(Step(s, a))
  {
    hide Inv, WakeInv, Enabled, Step, OneBlocked;
    if s.wpc == WSigQ && a.Do? && a.t == Worker {
      SignalStep(s, a);
    } else {
      WorkerArrives(s, a);
      StepKeepsClients(s, a);
      forall c | c in Step(s, a).cl ensures !Step(s, a).cl[c].FnSleep? {
        StaysUnblocked(s, a, c);
      }
    }
  }

  lemma {:induction false} WorkerArrives(s: State, a: Action)
    requires Enabled(s, a) && (Step(s, a).wpc == WWait || Step(s, a).wpc == WSleep)
    ensures s.wpc == WWait || s.wpc == WSleep || (s.wpc == WSigQ && a.Do? && a.t == Worker)
  {
    hide CNext, MayBegin, ClientData, WorkerData;
    if a.Do? {
      if InstrOf(s, a.t) != Data {
        DoQuiet(s, a.t, a.wakes);
      } else if a.t.Client? {
        ClientDataHolds(s, a.t.id, MQ);
      } else {
        WorkerDataStaysUp(s);
      }
    }
  }

  lemma {:induction false} WorkerDataStaysUp(s: State)
    requires WInstr(s.wpc, s.ev1) == Data
    ensures WorkerData(s).wpc != WWait && WorkerData(s).wpc != WSleep
  {
    hide Remove, Submit, ClearSubmitted, Run, ClearRunning, Complete;
  }

  lemma {:induction false} SleepFromWait(s: State, a: Action, c: nat)
    requires Enabled(s, a) && c in s.cl && ActsFor(a, c)
    requires c in Step(s, a).cl && Step(s, a).cl[c].FnSleep?
    ensures s.cl[c].FnWait?
  {
    if a.Do? && CInstr(s.cl[c]) != Data { assert Step(s, a).cl[c] == CNext(s.cl[c]); }
  }

  lemma {:induction false} OnlyWorkerAsleep(s: State)
    requires NoneBlocked(s)
    ensures forall t :: Asleep(s, t, MQ) ==> t == Worker
  {
  }

  /** With the worker asleep in its run loop, the signal of an enqueue wakes it. */
  lemma {:induction false} EnqueueWakesWorker(s: State, c: nat, wakes: Option<Thread>)
    requires WakeInv(s) && s.wpc == WSleep && c in s.cl && s.cl[c].EnqSig?
    requires CanDo(s, Client(c), wakes)
    ensures wakes == Some(Worker) && DoStep(s, Client(c), wakes).wpc == WWake
  {
    assert Asleep(s, Worker, MQ);
    OnlyWorkerAsleep(s);
  }

  lemma {:induction false} EnqueuerStep(s: State, a: Action)
    requires Inv(s) && WakeInv(s) && Enabled(s, a)
    requires Step(s, a).wpc == WSleep && Step(s, a).q.queued != []
    ensures EnqueuerSignals(Step(s, a))
  {
    var s' := Step(s, a);
    WorkerArrives(s, a);
    if s.wpc == WSleep && s.q.queued != [] {
      var c := s.owner[MQ].id;
      assert Holds(s, Client(c), MQ);
      if a.Do? && a.t == Client(c) {
        EnqueueWakesWorker(s, c, a.wakes);
      } else {
        BystanderOwner(s, a, c);
      }
    } else {
      QueueFilled(s, a);
    }
  }

  lemma {:induction false} BystanderOwner(s: State, a: Action, c: nat)
    requires LockInv(s) && SlotInv(s) && Enabled(s, a) && c in s.cl && s.cl[c].EnqSig?
    requires Holds(s, Client(c), MQ) && !(a.Do? && a.t == Client(c))
    ensures EnqueuerSignals(Step(s, a))
  {
    var s' := Step(s, a);
    assert !ActsFor(a, c);
    BystanderPc(s, a, c);
    LockStep(s, a);
    assert Holds(s', Client(c), MQ);
  }

  /** Only an enqueue makes an empty queue nonempty. */
  lemma {:induction false} QueueFilled(s: State, a: Action)
    requires Inv(s) && Enabled(s, a) && s.q.queued == [] && Step(s, a).q.queued != []
    ensures EnqueuerSignals(Step(s, a))
  {
    hide Inv, CHolds, WHolds;
    FilledBy(s, a);
    assert LockInv(s) && Holds(s, a.t, MQ) by { HoldsToEnqueue(s, a.t.id); }
  }

  lemma {:induction false} FilledBy(s: State, a: Action)
    requires Enabled(s, a) && s.q.queued == [] && Step(s, a).q.queued != []
    ensures a.Do? && a.t.Client? && s.cl[a.t.id].EnqInsert?
  {
    if a.Do? && InstrOf(s, a.t) != Data { DoQuiet(s, a.t, a.wakes); }
  }

  lemma {:induction false} HoldsToEnqueue(s: State, c: nat)
    requires Inv(s) && c in s.cl && s.cl[c].EnqInsert?
    ensures LockInv(s) && Holds(s, Client(c), MQ)
  {
  }

  lemma {:induction false} FnWaitStep(s: State, a: Action, c: nat)
    requires Inv(s) && WakeInv(s) && Enabled(s, a)
    requires c in Step(s, a).cl && Step(s, a).cl[c].FnWait?
    ensures Busy(Step(s, a).q)
  {
    StepKeepsClients(s, a);
    if ActsFor(a, c) {
      FnWaitActor(s, a, c);
    } else {
      BystanderPc(s, a, c);
      assert Holds(s, Client(c), MQ);
      HeldFreezesQueue(s, a, Client(c));
    }
  }

  lemma {:induction false} FnWaitActor(s: State, a: Action, c: nat)
    requires Enabled(s, a) && c in s.cl && ActsFor(a, c)
    requires c in Step(s, a).cl && Step(s, a).cl[c].FnWait?
    ensures Busy(Step(s, a).q)
  {
    hide WInstr, WNext, WorkerData, MayBegin, Enqueue, Release;
  }

  lemma {:induction false} WakeStep(s: State, a: Action)
    requires Inv(s) && WakeInv(s) && SignalsOne(s) && Enabled(s, a)
    ensures WakeInv(Step(s, a))
  {
    var s' := Step(s, a);
    if s'.wpc == WWait || s'.wpc == WSleep { NoneBlockedStep(s, a); }
    if s'.wpc == WSleep && s'.q.queued != [] { EnqueuerStep(s, a); }
    forall c | c in s'.cl && s'.cl[c].FnWait? ensures Busy(s'.q) { FnWaitStep(s, a, c); }
  }

  /** The worker never signals while two finishers are asleep. */
  ghost predicate OneBlockedRun(s: State, acts: seq<Action>)
    requires Exec(s, acts).Some?
    decreases acts
  {
    SignalsOne(s) && (acts != [] ==> OneBlockedRun(Step(s, acts[0]), acts[1..]))
  }

  lemma {:induction false} WakeRun(s: State, acts: seq<Action>)
    requires Inv(s) && WakeInv(s) && Exec(s, acts).Some? && OneBlockedRun(s, acts)
    ensures Inv(Exec(s, acts).value) && WakeInv(Exec(s, acts).value)
    decreases acts
  {
    if acts != [] {
      InvStep(s, acts[0]);
      WakeStep(s, acts[0]);
      WakeRun(Step(s, acts[0]), acts[1..]);
    }
  }

  /** No lost wakeup: on a run on which the worker signals at most one blocked finisher, a worker asleep in its run loop
      has nothing in the slots, no finisher sleeps beside it, and nothing is queued unless the
      enqueuer that holds the queue mutex is about to signal. */
  lemma {:induction false} NoLostWakeup(clients: set<nat>, s: State)
    requires ReachedOneBlocked(clients, s) && s.wpc == WSleep
    ensures s.q.submitted == None && s.q.running == None && NoneBlocked(s)
    ensures s.q.queued == [] || EnqueuerSignals(s)
  {
    ReachedInvariants(clients, s);
  }

  // ---- creating the queue

  predicate Creating(p: CPc) { p.CrLock? || p.CrSet? || p.CrSig? || p.CrUnlock? || p.CrDone? }

  predicate CreatorSignals(s: State) {
    MQ in s.owner && s.owner[MQ].Client? && s.owner[MQ].id in s.cl && s.cl[s.owner[MQ].id].CrSig?
  }

  predicate QstatKnown(qstat: nat, p: CPc) {
    && (p.CrLock? || p.CrSet? ==> qstat == 0)
    && (p.CrSig? || p.CrUnlock? || p.CrDone? ==> qstat == 1)
    && (p.RqSig? || p.RqUnlock? || p.RqJoin? || p.RqDone? ==> qstat == 2)
  }

  /** The life cycle of qstat: 0 until the one creator sets it, then 1, then 2 for good. */
  ghost predicate LifeInv(s: State) {
    && (forall c :: c in s.cl ==> QstatKnown(s.q.qstat, s.cl[c]))
    && (s.h.created ==> s.q.qstat == 1 || s.q.qstat == 2)
    && (forall c :: c in s.cl && Creating(s.cl[c]) ==> !s.h.created)
    && (forall c, d :: c in s.cl && d in s.cl && Creating(s.cl[c]) && c != d ==> s.cl[d] == CIdle)
    && (!s.h.created ==> forall c :: c in s.cl ==> s.cl[c] == CIdle || Creating(s.cl[c]))
    && (s.wpc == WIdleWait ==> s.q.qstat == 0)
    && (s.wpc == WIdleSleep ==> s.q.qstat == 0 || CreatorSignals(s))
  }

  lemma {:induction false} QstatStep(s: State, a: Action)
    requires LifeInv(s) && Enabled(s, a)
    ensures var q' := Step(s, a).q.qstat;
      || q' == s.q.qstat
      || (a.Do? && a.t.Client? && s.cl[a.t.id] == CrSet && s.q.qstat == 0 && q' == 1)
      || (a.Do? && a.t.Client? && s.cl[a.t.id] == RqSet && s.h.created && q' == 2)
  {
    if a.Do? && InstrOf(s, a.t) != Data { DoQuiet(s, a.t, a.wakes); }
  }

  /** What the acting client's move means for the life cycle. */
  predicate LifeMove(s: State, a: Action, s': State, c: nat) {
    && c in s.cl && c in s'.cl && QstatKnown(s'.q.qstat, s'.cl[c])
    && (Creating(s'.cl[c]) ==> Creating(s.cl[c]) || (a == Begin(c, OpCreate) && s.q.qstat == 0))
    && (Creating(s.cl[c]) ==> Creating(s'.cl[c]) || (a == Return(c) && s.cl[c] == CrDone && s'.cl[c] == CIdle))
    && (s.cl[c] == CIdle ==> Creating(s'.cl[c]) || s.h.created)
  }

  lemma {:induction false} LifeActor(s: State, a: Action, c: nat)
    requires LifeInv(s) && Enabled(s, a) && c in s.cl && ActsFor(a, c)
    ensures LifeMove(s, a, Step(s, a), c)
  {
    if a.Do? {
      if CInstr(s.cl[c]) == Data { LifeActorData(s, c); } else { LifeActorSync(s, c, a.wakes); }
    }
  }

  lemma {:induction false} LifeActorData(s: State, c: nat)
    requires LifeInv(s) && c in s.cl && CInstr(s.cl[c]) == Data
    ensures LifeMove(s, Do(Client(c), None), ClientData(s, c), c)
  {
  }

  lemma {:induction false} LifePc(qstat: nat, p: CPc)
    requires CInstr(p) != Data && CInstr(p) != Stop && QstatKnown(qstat, p)
    ensures QstatKnown(qstat, CNext(p)) && Creating(CNext(p)) == Creating(p) && CNext(p) != CIdle && p != CIdle
  {
  }

  lemma {:induction false} LifeActorSync(s: State, c: nat, wakes: Option<Thread>)
    requires LifeInv(s) && c in s.cl && CanDo(s, Client(c), wakes) && CInstr(s.cl[c]) != Data
    ensures LifeMove(s, Do(Client(c), wakes), DoStep(s, Client(c), wakes), c)
  {
    hide WInstr, WNext, WorkerData, ClientData, Creating, QstatKnown;
    DoQuiet(s, Client(c), wakes);
    assert DoStep(s, Client(c), wakes).cl[c] == CNext(s.cl[c]);
    assert QstatKnown(s.q.qstat, s.cl[c]);
    LifePc(s.q.qstat, s.cl[c]);
  }

  lemma {:induction false} CreatedStep(s: State, a: Action)
    requires Enabled(s, a)
    ensures Step(s, a).h.created <==>
            s.h.created || (a.Return? && s.cl[a.c] == CrDone)
  {
    if a.Do? && InstrOf(s, a.t) != Data { DoQuiet(s, a.t, a.wakes); }
  }

  lemma {:induction false} LifeKnown(s: State, a: Action, c: nat)
    requires LifeInv(s) && Enabled(s, a) && c in s.cl
    ensures c in Step(s, a).cl && QstatKnown(Step(s, a).q.qstat, Step(s, a).cl[c])
  {
    hide ClientData, WorkerData, DoStep, BeginStep;
    assert QstatKnown(s.q.qstat, s.cl[c]);
    if ActsFor(a, c) {
      LifeActor(s, a, c);
    } else {
      BystanderPc(s, a, c);
      QstatStep(s, a);
    }
  }

  lemma {:induction false} LifeCreating(s: State, a: Action, c: nat)
    requires LifeInv(s) && Enabled(s, a) && c in s.cl
    ensures c in Step(s, a).cl
    ensures Creating(Step(s, a).cl[c]) ==> !Step(s, a).h.created
    ensures Creating(Step(s, a).cl[c]) ==> Creating(s.cl[c]) || (a == Begin(c, OpCreate) && s.q.qstat == 0)
    ensures !Step(s, a).h.created ==> Step(s, a).cl[c] == CIdle || Creating(Step(s, a).cl[c])
  {
    hide ClientData, WorkerData, DoStep, BeginStep, QstatKnown, WInstr, WNext;
    CreatedStep(s, a);
    if ActsFor(a, c) { LifeActor(s, a, c); } else { BystanderPc(s, a, c); }
  }

  lemma {:induction false} LifeAlone(s: State, a: Action, c: nat, d: nat)
    requires LifeInv(s) && Enabled(s, a) && c in s.cl && d in s.cl && c != d
    requires c in Step(s, a).cl && d in Step(s, a).cl && Creating(Step(s, a).cl[c])
    ensures Step(s, a).cl[d] == CIdle
  {
    LifeCreating(s, a, c);
    if ActsFor(a, d) { LifeActor(s, a, d); } else { BystanderPc(s, a, d); }
  }

  lemma {:induction false} LifeSleep(s: State, a: Action)
    requires Inv(s) && LifeInv(s) && Enabled(s, a)
    ensures var s' := Step(s, a);
      && (s'.wpc == WIdleWait ==> s'.q.qstat == 0)
      && (s'.wpc == WIdleSleep ==> s'.q.qstat == 0 || CreatorSignals(s'))
  {
    var s' := Step(s, a);
    QstatStep(s, a);
    IdleArrives(s, a);
    if s'.wpc == WIdleWait && s.wpc == WIdleWait {
      assert Holds(s, Worker, MQ);
      if a.Do? && a.t.Client? { assert !Holds(s, a.t, MQ); }
    } else if s'.wpc == WIdleSleep && s.wpc == WIdleSleep {
      if a.Do? && a.t.Client? && s.cl[a.t.id] == CrSet {
        assert Holds(s, a.t, MQ);
      } else if s.q.qstat != 0 {
        var c := s.owner[MQ].id;
        assert Holds(s, Client(c), MQ);
        assert !s.h.created;
        if a.Do? && a.t == Client(c) {
          CreatorWakesWorker(s, c, a.wakes);
        } else {
          BystanderPc(s, a, c);
          LockStep(s, a);
          assert Holds(s', Client(c), MQ);
        }
      }
    }
  }

  lemma {:induction false} IdleArrives(s: State, a: Action)
    requires Enabled(s, a)
    ensures Step(s, a).wpc == WIdleWait ==>
      s.wpc == WIdleWait || (s.wpc == WIdle && s.q.qstat == 0 && Step(s, a).q == s.q)
    ensures Step(s, a).wpc == WIdleSleep ==> s.wpc == WIdleSleep || (s.wpc == WIdleWait && Step(s, a).q == s.q)
  {
    if a.Do? && InstrOf(s, a.t) != Data { DoQuiet(s, a.t, a.wakes); }
  }

  lemma {:induction false} CreatorWakesWorker(s: State, c: nat, wakes: Option<Thread>)
    requires LifeInv(s) && s.wpc == WIdleSleep && c in s.cl && s.cl[c].CrSig?
    requires CanDo(s, Client(c), wakes)
    ensures DoStep(s, Client(c), wakes).wpc == WIdleWake
  {
    assert Asleep(s, Worker, MQ);
    assert NoneBlocked(s);
    OnlyWorkerAsleep(s);
  }

  lemma {:induction false} LifeStep(s: State, a: Action)
    requires Inv(s) && LifeInv(s) && Enabled(s, a)
    ensures LifeInv(Step(s, a))
  {
    var s' := Step(s, a);
    StepKeepsClients(s, a);
    QstatStep(s, a);
    CreatedStep(s, a);
    LifeSleep(s, a);
    forall c | c in s'.cl
      ensures QstatKnown(s'.q.qstat, s'.cl[c])
      ensures Creating(s'.cl[c]) ==> !s'.h.created
      ensures !s'.h.created ==> s'.cl[c] == CIdle || Creating(s'.cl[c])
    {
      LifeKnown(s, a, c);
      LifeCreating(s, a, c);
    }
    forall c, d | c in s'.cl && d in s'.cl && Creating(s'.cl[c]) && c != d ensures s'.cl[d] == CIdle {
      LifeAlone(s, a, c, d);
    }
  }

  // ---- releasing the queue

  /** The worker has yet to look at qstat before it can sleep or serve again. */
  predicate SeesRelease(p: WPc) {
    match p
    case WStart | WIdle | WIdleWake | WGapUnlock | WGapLock | WLoop | WWake | WExit | WDone => true
    case _ => false
  }

  function StepsToExit(p: WPc): nat {
    match p
    case WDone => 0
    case WExit => 1
    case WLoop => 2
    case WWake | WGapLock => 3
    case WGapUnlock => 4
    case WIdle => 5
    case _ => 6
  }

  predicate WakesWorker(a: Action) {
    (a.Do? && a.wakes == Some(Worker)) || a == Spurious(Worker)
  }

  lemma {:induction false} WorkerUnmoved(s: State, a: Action)
    requires Enabled(s, a) && !WakesWorker(a) && !(a.Do? && a.t == Worker)
    ensures Step(s, a).wpc == s.wpc && Step(s, a).h.began == s.h.began
  {
  }

  /** Once heard, the worker never sleeps and never serves a command again: each step it takes
      brings it nearer to its exit. */
  lemma {:induction false} HeardStep(s: State, a: Action)
    requires SeesRelease(s.wpc) && s.q.qstat == 2 && Enabled(s, a)
    ensures SeesRelease(Step(s, a).wpc) && Step(s, a).h.began == s.h.began
    ensures StepsToExit(Step(s, a).wpc) + (if a.Do? && a.t == Worker then 1 else 0) <= StepsToExit(s.wpc)
  {
    if !WakesWorker(a) && !(a.Do? && a.t == Worker) { WorkerUnmoved(s, a); }
  }

  predicate Missed(p: WPc) { !SeesRelease(p) && p != WIdleSleep && p != WIdleWait }

  /** Once lost, the worker does not exit unless something wakes it from its run-loop sleep. */
  lemma {:induction false} LostStep(s: State, a: Action)
    requires Missed(s.wpc) && Enabled(s, a) && !WakesWorker(a)
    ensures Missed(Step(s, a).wpc)
  {
    if a.Do? && a.t == Worker {
      if InstrOf(s, Worker) == Data { LostData(s); } else { LostSync(s, a.wakes); }
    } else {
      WorkerUnmoved(s, a);
    }
  }

  lemma {:induction false} LostData(s: State)
    requires Missed(s.wpc) && WInstr(s.wpc, s.ev1) == Data
    ensures Missed(WorkerData(s).wpc)
  {
  }

  lemma {:induction false} LostSync(s: State, wakes: Option<Thread>)
    requires Missed(s.wpc) && CanDo(s, Worker, wakes) && WInstr(s.wpc, s.ev1) != Data
    ensures Missed(DoStep(s, Worker, wakes).wpc)
  {
  }

  lemma {:induction false} HeardRun(s: State, acts: seq<Action>)
    requires Inv(s) && LifeInv(s) && SeesRelease(s.wpc) && s.q.qstat == 2 && s.h.created
    requires Exec(s, acts).Some?
    ensures var s' := Exec(s, acts).value; SeesRelease(s'.wpc) && s'.h.began == s.h.began
    decreases acts
  {
    if acts != [] {
      InvStep(s, acts[0]);
      LifeStep(s, acts[0]);
      HeardStep(s, acts[0]);
      QstatStep(s, acts[0]);
      CreatedStep(s, acts[0]);
      HeardRun(Step(s, acts[0]), acts[1..]);
    }
  }

  ghost predicate NeverWakesWorker(acts: seq<Action>) { forall a :: a in acts ==> !WakesWorker(a) }

  lemma {:induction false} LostRun(s: State, acts: seq<Action>)
    requires Missed(s.wpc) && Exec(s, acts).Some? && NeverWakesWorker(acts)
    ensures Missed(Exec(s, acts).value.wpc)
    decreases acts
  {
    if acts != [] {
      LostStep(s, acts[0]);
      LostRun(Step(s, acts[0]), acts[1..]);
    }
  }

  /** What a release that holds the queue mutex knows of the worker. */
  lemma {:induction false} ReleaserKnows(s: State, c: nat)
    requires Inv(s) && LifeInv(s) && c in s.cl && s.cl[c] == RqSig
    ensures SlotInv(s) && !WHoldsQ(s.wpc) && s.wpc != WIdleSleep
  {
    hide FifoInv, StatusInv, CompleteInv, ClientsInv;
    assert Holds(s, Client(c), MQ);
    assert !Holds(s, Worker, MQ);
  }

  /** The signal of a release reaches a worker that will act on it exactly when no command is in the submitted or
      the running slot and a worker asleep in its run loop is the one that is woken. */
  lemma {:induction false} ReleaseHeardIff(s: State, c: nat, wakes: Option<Thread>)
    requires Inv(s) && LifeInv(s)
    requires c in s.cl && s.cl[c] == RqSig && CanDo(s, Client(c), wakes)
    ensures var s' := DoStep(s, Client(c), wakes);
      if s.q.submitted == None && s.q.running == None && (s.wpc == WSleep ==> wakes == Some(Worker))
      then SeesRelease(s'.wpc) else Missed(s'.wpc)
  {
    hide Inv, LifeInv, CNext;
    ReleaserKnows(s, c);
  }

  /** Which it is when no finisher sleeps beside it. */
  lemma {:induction false} ReleaseWakesWorker(s: State, c: nat, wakes: Option<Thread>)
    requires WakeInv(s) && s.wpc == WSleep && c in s.cl && s.cl[c] == RqSig && CanDo(s, Client(c), wakes)
    ensures wakes == Some(Worker)
  {
    assert Asleep(s, Worker, MQ);
    OnlyWorkerAsleep(s);
  }

  /** Reached by a run on which no two finishers were asleep at a signal of the worker. */
  ghost predicate ReachedOneBlocked(clients: set<nat>, s: State) {
    exists acts :: Exec(Init(clients), acts) == Some(s) && OneBlockedRun(Init(clients), acts)
  }

  lemma {:induction false} InitWakes(clients: set<nat>)
    ensures WakeInv(Init(clients)) && LifeInv(Init(clients))
  {
  }

  lemma {:induction false} ReachedInvariants(clients: set<nat>, s: State)
    requires ReachedOneBlocked(clients, s)
    ensures Inv(s) && WakeInv(s) && LifeInv(s)
  {
    hide Inv, WakeInv, LifeInv, Exec, OneBlockedRun, Init;
    var acts :| Exec(Init(clients), acts) == Some(s) && OneBlockedRun(Init(clients), acts);
    InitInv(clients);
    InitWakes(clients);
    WakeRun(Init(clients), acts);
    LifeRun(Init(clients), acts);
  }

  lemma {:induction false} ReachableLife(clients: set<nat>, s: State)
    requires Reachable(clients, s)
    ensures Inv(s) && LifeInv(s)
  {
    hide Inv, WakeInv, LifeInv, Exec, Init;
    var acts :| Exec(Init(clients), acts) == Some(s);
    InitInv(clients);
    InitWakes(clients);
    InvExec(Init(clients), acts);
    LifeRun(Init(clients), acts);
  }

  /** A release signalled with both slots empty that does not wake another than the sleeping worker: over the rest
      of any run no command is ever begun again and the worker is on its way out. */
  lemma {:induction false} ReleaseHeard(clients: set<nat>, s: State, c: nat, wakes: Option<Thread>,
                     after: seq<Action>, s': State)
    requires Reachable(clients, s)
    requires c in s.cl && s.cl[c] == RqSig && CanDo(s, Client(c), wakes)
    requires s.q.submitted == None && s.q.running == None && (s.wpc == WSleep ==> wakes == Some(Worker))
    requires Exec(DoStep(s, Client(c), wakes), after) == Some(s')
    ensures SeesRelease(s'.wpc) && s'.h.began == s.h.began
  {
    hide Inv, LifeInv, CanDo, DoStep, Reachable, Exec;
    ReachableLife(clients, s);
    ReleaseHeardIff(s, c, wakes);
    var s1 := AfterRelease(s, c, wakes);
    HeardRun(s1, after);
  }

  /** Any other release is lost: the worker never exits, so the release never joins it, unless a later enqueue or
      a spurious wakeup wakes it. */
  lemma {:induction false} ReleaseLost(clients: set<nat>, s: State, c: nat, wakes: Option<Thread>,
                    after: seq<Action>, s': State)
    requires Reachable(clients, s)
    requires c in s.cl && s.cl[c] == RqSig && CanDo(s, Client(c), wakes)
    requires s.q.submitted.Some? || s.q.running.Some? || (s.wpc == WSleep && wakes != Some(Worker))
    requires Exec(DoStep(s, Client(c), wakes), after) == Some(s') && NeverWakesWorker(after)
    ensures s'.wpc != WDone
  {
    hide Inv, LifeInv, CanDo, DoStep, Reachable, Exec;
    ReachableLife(clients, s);
    ReleaseHeardIff(s, c, wakes);
    var s1 := AfterRelease(s, c, wakes);
    LostRun(s1, after);
  }

  /** On a run on which the worker signals at most one blocked finisher, the release is heard by a sleeping worker. */
  lemma {:induction false} ReleaseReaches(clients: set<nat>, s: State, c: nat, wakes: Option<Thread>)
    requires ReachedOneBlocked(clients, s)
    requires c in s.cl && s.cl[c] == RqSig && CanDo(s, Client(c), wakes)
    ensures s.wpc == WSleep ==> wakes == Some(Worker)
  {
    ReachedInvariants(clients, s);
    if s.wpc == WSleep { ReleaseWakesWorker(s, c, wakes); }
  }

  lemma {:induction false} AfterRelease(s: State, c: nat, wakes: Option<Thread>) returns (s': State)
    requires Inv(s) && LifeInv(s) && c in s.cl && s.cl[c] == RqSig && CanDo(s, Client(c), wakes)
    ensures s' == DoStep(s, Client(c), wakes) && Inv(s') && LifeInv(s')
    ensures s'.q == s.q && s'.h == s.h && s.q.qstat == 2 && s.h.created
  {
    s' := DoStep(s, Client(c), wakes);
    DoQuiet(s, Client(c), wakes);
    CreatedStep(s, Do(Client(c), wakes));
    InvStep(s, Do(Client(c), wakes));
    LifeStep(s, Do(Client(c), wakes));
  }

  lemma {:induction false} LifeRun(s: State, acts: seq<Action>)
    requires Inv(s) && LifeInv(s) && Exec(s, acts).Some?
    ensures LifeInv(Exec(s, acts).value)
    decreases acts
  {
    if acts != [] {
      InvStep(s, acts[0]);
      LifeStep(s, acts[0]);
      LifeRun(Step(s, acts[0]), acts[1..]);
    }
  }
}
