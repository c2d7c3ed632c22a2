/** The positive side of the wakeup protocol: with work to do somebody can always take a step. */
module QueueProgress {
  import opened Basics
  import opened QueueCore
  import opened QueueMachine
  import opened QueueInvariants
  import opened QueueTheorems
  import opened QueueWakeups

  predicate IsIdle(p: WPc) { p == WStart || p == WIdle || p == WIdleWait || p == WIdleSleep || p == WIdleWake }

  /** The worker leaves its idle loop only after the creation, and its run loop only after the release. */
  predicate ExitInv(s: State) {
    && (!IsIdle(s.wpc) ==> s.q.qstat != 0)
    && (s.wpc == WExit || s.wpc == WDone ==> s.q.qstat > 1)
  }

  lemma {:induction false} ExitStep(s: State, a: Action)
    requires LifeInv(s) && s.wpc != WCrash && ExitInv(s) && Enabled(s, a)
    ensures ExitInv(Step(s, a))
  {
    hide LifeInv, CanDo, DoStep;
    QstatStep(s, a);
    if a.Do? && a.t == Worker {
      ExitWorker(s, a.wakes);
    } else {
      ExitOther(s, a);
    }
  }

  /** What a step of somebody else does to the worker: nothing, or a wakeup. */
  lemma {:induction false} ExitOther(s: State, a: Action)
    requires Enabled(s, a) && !(a.Do? && a.t == Worker)
    ensures Step(s, a).wpc == s.wpc || (WInstr(s.wpc, s.ev1).Sleep? && Step(s, a).wpc == WNext(s.wpc))
    ensures IsIdle(Step(s, a).wpc) == IsIdle(s.wpc)
    ensures Step(s, a).wpc == WExit || Step(s, a).wpc == WDone ==> Step(s, a).wpc == s.wpc
  {
    if a.Do? && InstrOf(s, a.t) == Data { ClientDataMoves(s, a.t.id); }
  }

  lemma {:induction false} ExitWorker(s: State, wakes: Option<Thread>)
    requires ExitInv(s) && CanDo(s, Worker, wakes)
    ensures DoStep(s, Worker, wakes).q.qstat == s.q.qstat && ExitInv(DoStep(s, Worker, wakes))
  {
  }

  lemma {:induction false} ExitRun(s: State, acts: seq<Action>)
    requires Inv(s) && LifeInv(s) && ExitInv(s) && Exec(s, acts).Some?
    ensures ExitInv(Exec(s, acts).value)
    decreases acts
  {
    hide LockInv, FifoInv, StatusInv, CompleteInv, ClientsInv, LifeInv, ExitInv, Enabled, Step;
    if acts != [] {
      InvStep(s, acts[0]);
      LifeStep(s, acts[0]);
      ExitStep(s, acts[0]);
      ExitRun(Step(s, acts[0]), acts[1..]);
    }
  }

  lemma {:induction false} ReachedExit(clients: set<nat>, s: State)
    requires ReachedOneBlocked(clients, s)
    ensures Reachable(clients, s) && ExitInv(s) && s.wpc != WCrash
  {
    hide Inv, LifeInv, Exec, OneBlockedRun, Init;
    var acts :| Exec(Init(clients), acts) == Some(s) && OneBlockedRun(Init(clients), acts);
    InitInv(clients);
    InitWakes(clients);
    assert ExitInv(Init(clients)) by { InitExit(clients); }
    ExitRun(Init(clients), acts);
    CallsInOrder(clients, s);
  }

  lemma {:induction false} InitExit(clients: set<nat>)
    ensures ExitInv(Init(clients))
  {
  }

  /** Somebody that t is blocked by can take a step, or is blocked by somebody that can. */
  ghost predicate FreedBySomeone(s: State, t: Thread) {
    exists u :: BlockedBy(s, t, u) && (Runs(s, u) || exists v :: BlockedBy(s, u, v) && Runs(s, v))
  }

  /** A client is about to signal the sleeping worker, and can. */
  ghost predicate WokenBySomeone(s: State) {
    && (s.wpc == WSleep || s.wpc == WIdleSleep)
    && exists c :: c in s.cl && (s.cl[c].EnqSig? || s.cl[c].CrSig?) && Runs(s, Client(c))
  }

  /** While a queue in use has work the worker can take a step, or is waiting for a mutex that comes free by the
      steps of others, or asleep with a client about to wake it. */
  lemma {:induction false} WorkMeansSomeoneRuns(clients: set<nat>, s: State)
    requires ReachedOneBlocked(clients, s) && s.q.qstat == 1 && Busy(s.q)
    ensures Runs(s, Worker) || FreedBySomeone(s, Worker) || WokenBySomeone(s)
  {
    hide ReachedOneBlocked, Reachable, Runs, CanDo, Inv, WakeInv, WInstr, CInstr;
    ReachedExit(clients, s);
    assert s.wpc != WDone;
    WorkerInstr(s);
    if InstrOf(s, Worker).Sleep? {
      var c := SignallerAwake(clients, s);
      AwakeRuns(s, Client(c));
    } else if InstrOf(s, Worker).Lock? && InstrOf(s, Worker).m in s.owner {
      BlockedMeansSomeoneRuns(clients, s, Worker, s.owner[InstrOf(s, Worker).m]);
    } else {
      AwakeRuns(s, Worker);
    }
  }

  lemma {:induction false} WorkerInstr(s: State)
    requires s.wpc != WDone && s.wpc != WCrash
    ensures InstrOf(s, Worker) != Stop
    ensures InstrOf(s, Worker).Sleep? ==> s.wpc == WSleep || s.wpc == WIdleSleep
  {
  }

  /** The client whose signal will wake the sleeping worker. */
  lemma {:induction false} SignallerAwake(clients: set<nat>, s: State) returns (c: nat)
    requires ReachedOneBlocked(clients, s) && s.q.qstat == 1 && Busy(s.q)
    requires s.wpc == WSleep || s.wpc == WIdleSleep
    ensures c in s.cl && (s.cl[c].EnqSig? || s.cl[c].CrSig?) && InstrOf(s, Client(c)).Signal?
  {
    hide ReachedOneBlocked, Inv;
    ReachedInvariants(clients, s);
    if s.wpc == WSleep { NoLostWakeup(clients, s); }
    c := s.owner[MQ].id;
  }
}
