/** The command queue as a transition system: one worker running cmdqx1, any number of
    clients, the queue mutex, one mutex per event, and the condition variable of each mutex.
    A program counter stands for a source line; what happens there is an instruction, either a
    pthread call or an access to the shared data. The wait set of a condition variable is the
    set of threads whose program counter is at a Sleep instruction. */
module QueueMachine {
  import opened Basics
  import opened QueueCore

  datatype Thread = Worker | Client(id: nat)

  datatype Mutex = MQ | ME(e: Ev)

  datatype Instr =
    | Lock(m: Mutex)      // pthread_mutex_lock, also the reacquisition inside pthread_cond_wait
    | Unlock(m: Mutex)
    | Wait(m: Mutex)      // pthread_cond_wait: release m and fall asleep
    | Sleep(m: Mutex)     // asleep until signalled or woken spuriously
    | Signal(m: Mutex)    // pthread_cond_signal on the variable paired with m
    | Data                // reads or writes of shared data, and branches
    | Stop

  // ---- the worker, cmdsched.c:41-184

  datatype WPc =
    | WStart | WIdle | WIdleWait | WIdleSleep | WIdleWake | WGapUnlock | WGapLock // lines 71-84
    | WLoop | WHead | WLockEv1 | WRemove | WSubmit | WUnlockQ1                    // 88-111
    | WCall | WRet | WLockQ1 | WSig1 | WUnlockEv1                                 // 113-119
    | WLockEv2 | WClearSub | WSetRun | WUnlockQ2 | WLockQ2 | WSig2 | WUnlockEv2   // 132-145
    | WLockEv3 | WClearRun | WInsert | WSig3 | WUnlockEv3                         // 153-164
    | WSigQ | WWait | WSleep | WWake | WExit | WDone                              // 171-183
    | WCrash                                                                      // null event used

  function WInstr(p: WPc, ev1: Ev): Instr {
    match p
    case WStart | WIdleWake | WGapLock | WLockQ1 | WLockQ2 | WWake => Lock(MQ)
    case WLockEv1 | WLockEv2 | WLockEv3 => Lock(ME(ev1))
    case WGapUnlock | WUnlockQ1 | WUnlockQ2 | WExit => Unlock(MQ)
    case WUnlockEv1 | WUnlockEv2 | WUnlockEv3 => Unlock(ME(ev1))
    case WIdleWait | WWait => Wait(MQ)
    case WIdleSleep | WSleep => Sleep(MQ)
    case WSigQ => Signal(MQ)
    case WSig1 | WSig2 | WSig3 => Signal(ME(ev1))
    case WDone | WCrash => Stop
    case WIdle | WLoop | WHead | WRemove | WSubmit | WCall | WRet | WClearSub | WSetRun
       | WClearRun | WInsert => Data
  }

  /** The line after a pthread call; for a Sleep, where a woken thread goes on. */
  function WNext(p: WPc): WPc {
    match p
    case WStart => WIdle
    case WIdleWait => WIdleSleep
    case WIdleSleep => WIdleWake
    case WIdleWake => WIdle
    case WGapUnlock => WGapLock
    case WGapLock => WLoop
    case WLockEv1 => WRemove
    case WUnlockQ1 => WCall
    case WLockQ1 => WSig1
    case WSig1 => WUnlockEv1
    case WUnlockEv1 => WLockEv2
    case WLockEv2 => WClearSub
    case WUnlockQ2 => WLockQ2
    case WLockQ2 => WSig2
    case WSig2 => WUnlockEv2
    case WUnlockEv2 => WLockEv3
    case WLockEv3 => WClearRun
    case WSig3 => WUnlockEv3
    case WUnlockEv3 => WHead
    case WSigQ => WWait
    case WWait => WSleep
    case WSleep => WWake
    case WWake => WLoop
    case WExit => WDone
    case _ => p
  }

  // ---- the clients, command_queue.c:33-159 and event.c:36-567

  datatype CPc =
    | CIdle
    | CrLock | CrSet | CrSig | CrUnlock | CrDone                                // create
    | EnqLock(e: Ev) | EnqInsert(e: Ev) | EnqSig(e: Ev) | EnqUnlock(e: Ev) | EnqDone(e: Ev)
    | FnLock(k: nat) | FnTest(k: nat) | FnWait(k: nat) | FnSleep(k: nat) | FnWake(k: nat)
    | FnUnlock(k: nat) | FnDone(k: nat)                                         // finish
    | RqLock | RqSet | RqSig | RqUnlock | RqJoin | RqDone                       // release queue
    | WtLock(e: Ev) | WtTest(e: Ev) | WtWait(e: Ev) | WtSleep(e: Ev) | WtWake(e: Ev)
    | WtUnlock(e: Ev) | WtDone(e: Ev)                                           // wait for event
    | PlHead | PlSub(k: nat) | PlRun(k: nat, window: bool) | PlDone(k: nat, window: bool) // poll
    | RlLock(e: Ev) | RlRemove(e: Ev) | RlUnlock(e: Ev) | RlDone(e: Ev)         // release event

  function CInstr(p: CPc): Instr {
    match p
    case CrLock => Lock(MQ)
    case EnqLock(_) => Lock(MQ)
    case FnLock(_) => Lock(MQ)
    case FnWake(_) => Lock(MQ)
    case RqLock => Lock(MQ)
    case RlLock(_) => Lock(MQ)
    case WtLock(e) => Lock(ME(e))
    case WtWake(e) => Lock(ME(e))
    case CrUnlock => Unlock(MQ)
    case EnqUnlock(_) => Unlock(MQ)
    case FnUnlock(_) => Unlock(MQ)
    case RqUnlock => Unlock(MQ)
    case RlUnlock(_) => Unlock(MQ)
    case WtUnlock(e) => Unlock(ME(e))
    case FnWait(_) => Wait(MQ)
    case WtWait(e) => Wait(ME(e))
    case FnSleep(_) => Sleep(MQ)
    case WtSleep(e) => Sleep(ME(e))
    case CrSig => Signal(MQ)
    case EnqSig(_) => Signal(MQ)
    case RqSig => Signal(MQ)
    case CIdle => Stop
    case CrDone => Stop
    case EnqDone(_) => Stop
    case FnDone(_) => Stop
    case RqDone => Stop
    case WtDone(_) => Stop
    case PlDone(_, _) => Stop
    case RlDone(_) => Stop
    case _ => Data
  }

  function CNext(p: CPc): CPc {
    match p
    case CrLock => CrSet
    case CrSig => CrUnlock
    case CrUnlock => CrDone
    case EnqLock(e) => EnqInsert(e)
    case EnqSig(e) => EnqUnlock(e)
    case EnqUnlock(e) => EnqDone(e)
    case FnLock(k) => FnTest(k)
    case FnWait(k) => FnSleep(k)
    case FnSleep(k) => FnWake(k)
    case FnWake(k) => FnTest(k)
    case FnUnlock(k) => FnDone(k)
    case RqLock => RqSet
    case RqSig => RqUnlock
    case RqUnlock => RqJoin
    case WtLock(e) => WtTest(e)
    case WtWait(e) => WtSleep(e)
    case WtSleep(e) => WtWake(e)
    case WtWake(e) => WtTest(e)
    case WtUnlock(e) => WtDone(e)
    case RlLock(e) => RlRemove(e)
    case RlUnlock(e) => RlDone(e)
    case _ => p
  }

  // ---- states

  /** What has happened so far; `reserved` are the events given to some enqueue call. */
  datatype History = History(
    enq: seq<Ev>, began: seq<Ev>, called: seq<Ev>, finished: seq<Ev>,
    reserved: set<Ev>, created: bool)

  datatype State = State(
    q: Core, owner: map<Mutex, Thread>, wpc: WPc, ev1: Ev, cl: map<nat, CPc>, h: History)

  function Init(clients: set<nat>): State {
    State(Empty, map[], WStart, 0, map c | c in clients :: CIdle, History([], [], [], [], {}, false))
  }

  predicate IsThread(s: State, t: Thread) { t.Worker? || t.id in s.cl }

  function InstrOf(s: State, t: Thread): Instr
    requires IsThread(s, t)
  {
    if t.Worker? then WInstr(s.wpc, s.ev1) else CInstr(s.cl[t.id])
  }

  function At(s: State, c: nat, p: CPc): State { s.(cl := s.cl[c := p]) }

  function Advance(s: State, t: Thread): State
    requires IsThread(s, t)
  {
    if t.Worker? then s.(wpc := WNext(s.wpc)) else At(s, t.id, CNext(s.cl[t.id]))
  }

  predicate Asleep(s: State, t: Thread, m: Mutex) { IsThread(s, t) && InstrOf(s, t) == Sleep(m) }

  /** pthread_cond_signal wakes one of the waiters when there is one. */
  ghost predicate WakesOk(s: State, m: Mutex, wakes: Option<Thread>) {
    if wakes.Some? then Asleep(s, wakes.value, m) else forall t :: !Asleep(s, t, m)
  }

  // ---- accesses to shared data

  function WorkerData(s: State): State {
    var e := s.ev1;
    match s.wpc
    case WIdle => s.(wpc := if s.q.qstat == 0 then WIdleWait else WGapUnlock)
    case WLoop => s.(wpc := if s.q.qstat == 1 then WHead else WExit)
    case WHead =>
      if s.q.queued == [] then s.(wpc := WSigQ) else s.(ev1 := s.q.queued[0], wpc := WLockEv1)
    case WRemove => s.(q := Remove(s.q, e), wpc := WSubmit)
    case WSubmit => s.(q := Submit(s.q, e), wpc := WUnlockQ1)
    case WCall => s.(h := s.h.(began := s.h.began + [e]), wpc := WRet)
    case WRet => s.(h := s.h.(called := s.h.called + [e]), wpc := WLockQ1)
    case WClearSub =>
      if s.q.submitted.None? then s.(wpc := WCrash)
      else s.(ev1 := s.q.submitted.value, q := ClearSubmitted(s.q), wpc := WSetRun)
    case WSetRun => s.(q := Run(s.q, e), wpc := WUnlockQ2)
    case WClearRun =>
      if s.q.running.None? then s.(wpc := WCrash)
      else s.(ev1 := s.q.running.value, q := ClearRunning(s.q), wpc := WInsert)
    case WInsert =>
      s.(q := Complete(s.q, e), h := s.h.(finished := s.h.finished + [e]), wpc := WSig3)
    case _ => s
  }

  /** Joining the worker needs it to have exited. */
  predicate DataReady(s: State, p: CPc) { p.RqJoin? ==> s.wpc == WDone }

  function ClientData(s: State, c: nat): State
    requires c in s.cl
  {
    match s.cl[c]
    case CrSet => At(s.(q := s.q.(qstat := 1)), c, CrSig)
    case EnqInsert(e) => At(s.(q := Enqueue(s.q, e), h := s.h.(enq := s.h.enq + [e])), c, EnqSig(e))
    case FnTest(k) =>
      At(s, c, if s.q.queued != [] || s.q.submitted.Some? || s.q.running.Some?
               then FnWait(k) else FnUnlock(k))
    case RqSet => At(s.(q := s.q.(qstat := 2)), c, RqSig)
    case RqJoin => At(s, c, RqDone)
    case WtTest(e) =>
      At(s, c, if e in s.q.stat && s.q.stat[e] == COMPLETE then WtUnlock(e) else WtWait(e))
    case PlHead => if s.q.queued != [] then s else At(s, c, PlSub(|s.h.enq|))
    case PlSub(k) =>
      At(s, c, if s.q.submitted.Some? then PlHead else PlRun(k, s.wpc == WSubmit))
    case PlRun(k, w) => At(s, c, if s.q.running.Some? then PlHead else PlDone(k, w))
    case RlRemove(e) => At(s.(q := Release(s.q, e)), c, RlUnlock(e))
    case _ => s
  }

  // ---- calls

  datatype Op =
    | OpCreate | OpEnqueue(e: Ev) | OpFinish | OpReleaseQueue
    | OpWait(e: Ev) | OpPoll | OpReleaseEvent(e: Ev)

  /** A client that is going to take e off the complete list. */
  predicate Releases(p: CPc, e: Ev) { p == RlLock(e) || p == RlRemove(e) }

  /** When a client may start a call: a queue is created once and before it is used, an event is
      enqueued once, only an enqueued event is waited for, and only an event on the complete list
      is released, by one client. */
  predicate MayBegin(s: State, op: Op) {
    match op
    case OpCreate => s.q.qstat == 0 && forall c :: c in s.cl ==> s.cl[c] == CIdle
    case OpEnqueue(e) => s.h.created && e !in s.h.reserved
    case OpFinish => s.h.created
    case OpPoll => s.h.created
    case OpReleaseQueue => s.h.created && s.q.qstat == 1
    case OpWait(e) => s.h.created && e in s.h.enq
    case OpReleaseEvent(e) =>
      s.h.created && e in s.q.complete && forall c :: c in s.cl ==> !Releases(s.cl[c], e)
  }

  function BeginStep(s: State, c: nat, op: Op): State {
    match op
    case OpCreate => At(s, c, CrLock)
    case OpEnqueue(e) => At(s.(h := s.h.(reserved := s.h.reserved + {e})), c, EnqLock(e))
    case OpFinish => At(s, c, FnLock(|s.h.enq|))
    case OpReleaseQueue => At(s, c, RqLock)
    case OpWait(e) => At(s, c, WtLock(e))
    case OpPoll => At(s, c, PlHead)
    case OpReleaseEvent(e) => At(s, c, RlLock(e))
  }

  function ReturnStep(s: State, c: nat): State
    requires c in s.cl
  {
    At(if s.cl[c].CrDone? then s.(h := s.h.(created := true)) else s, c, CIdle)
  }

  // ---- steps and runs

  /** A thread executes its instruction (naming the thread a signal wakes), a client starts or
      returns from a call, or a sleeping thread wakes spuriously. */
  datatype Action =
    | Do(t: Thread, wakes: Option<Thread>)
    | Begin(c: nat, op: Op)
    | Return(c: nat)
    | Spurious(t: Thread)

  ghost predicate CanDo(s: State, t: Thread, wakes: Option<Thread>) {
    && IsThread(s, t)
    && match InstrOf(s, t)
       case Lock(m) => m !in s.owner && wakes == None
       case Unlock(m) => wakes == None
       case Wait(m) => wakes == None
       case Signal(m) => WakesOk(s, m, wakes)
       case Data => wakes == None && (t.Client? ==> DataReady(s, s.cl[t.id]))
       case Sleep(m) => false
       case Stop => false
  }

  function DoStep(s: State, t: Thread, wakes: Option<Thread>): State
    requires IsThread(s, t) && (wakes.Some? ==> IsThread(s, wakes.value))
  {
    match InstrOf(s, t)
    case Lock(m) => Advance(s.(owner := s.owner[m := t]), t)
    case Unlock(m) => Advance(s.(owner := s.owner - {m}), t)
    case Wait(m) => Advance(s.(owner := s.owner - {m}), t)
    case Signal(m) => Advance(if wakes.Some? then Advance(s, wakes.value) else s, t)
    case Data => if t.Worker? then WorkerData(s) else ClientData(s, t.id)
    case Sleep(m) => s
    case Stop => s
  }

  ghost predicate Enabled(s: State, a: Action) {
    match a
    case Do(t, wakes) => CanDo(s, t, wakes)
    case Begin(c, op) => c in s.cl && s.cl[c] == CIdle && MayBegin(s, op)
    case Return(c) => c in s.cl && s.cl[c] != CIdle && CInstr(s.cl[c]) == Stop
    case Spurious(t) => IsThread(s, t) && InstrOf(s, t).Sleep?
  }

  ghost function Step(s: State, a: Action): State
    requires Enabled(s, a)
  {
    match a
    case Do(t, wakes) => DoStep(s, t, wakes)
    case Begin(c, op) => BeginStep(s, c, op)
    case Return(c) => ReturnStep(s, c)
    case Spurious(t) => Advance(s, t)
  }

  /** A run is a list of actions, each enabled where it is taken. */
  ghost function Exec(s: State, acts: seq<Action>): Option<State>
    decreases acts
  {
    if acts == [] then Some(s)
    else if !Enabled(s, acts[0]) then None
    else Exec(Step(s, acts[0]), acts[1..])
  }
}
