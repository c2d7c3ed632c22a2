/** The inductive invariants of the command queue, each kept by every step. */
module QueueInvariants {
  import opened Basics
  import opened QueueCore
  import opened QueueMachine

  // ---- who holds which mutex, by program counter

  predicate WHoldsQ(p: WPc) {
    match p
    case WIdle | WIdleWait | WGapUnlock | WLoop | WHead | WLockEv1 | WRemove | WSubmit | WUnlockQ1
       | WSig1 | WUnlockEv1 | WLockEv2 | WClearSub | WSetRun | WUnlockQ2 | WSig2 | WUnlockEv2
       | WLockEv3 | WClearRun | WInsert | WSig3 | WUnlockEv3 | WSigQ | WWait | WExit => true
    case _ => false
  }

  predicate WHoldsEv(p: WPc) {
    match p
    case WRemove | WSubmit | WUnlockQ1 | WCall | WRet | WLockQ1 | WSig1 | WUnlockEv1 | WClearSub
       | WSetRun | WUnlockQ2 | WLockQ2 | WSig2 | WUnlockEv2 | WClearRun | WInsert | WSig3
       | WUnlockEv3 => true
    case _ => false
  }

  predicate CHoldsQ(p: CPc) {
    p.CrSet? || p.CrSig? || p.CrUnlock? || p.EnqInsert? || p.EnqSig? || p.EnqUnlock? || p.FnTest?
    || p.FnWait? || p.FnUnlock? || p.RqSet? || p.RqSig? || p.RqUnlock? || p.RlRemove? || p.RlUnlock?
  }

  predicate CHoldsEv(p: CPc, e: Ev) { p == WtTest(e) || p == WtWait(e) || p == WtUnlock(e) }

  predicate WHolds(p: WPc, ev1: Ev, m: Mutex) {
    if m.MQ? then WHoldsQ(p) else WHoldsEv(p) && m.e == ev1
  }

  predicate CHolds(p: CPc, m: Mutex) { if m.MQ? then CHoldsQ(p) else CHoldsEv(p, m.e) }

  predicate Holds(s: State, t: Thread, m: Mutex) {
    if t.Worker? then WHolds(s.wpc, s.ev1, m) else t.id in s.cl && CHolds(s.cl[t.id], m)
  }

  ghost predicate LockInv(s: State) {
    forall t, m {:trigger Holds(s, t, m)} :: Holds(s, t, m) <==> m in s.owner && s.owner[m] == t
  }

  // ---- where the worker is with the event it serves

  predicate InSubmitted(p: WPc) {
    match p
    case WUnlockQ1 | WCall | WRet | WLockQ1 | WSig1 | WUnlockEv1 | WLockEv2 | WClearSub => true
    case _ => false
  }

  predicate InRunning(p: WPc) {
    match p
    case WUnlockQ2 | WLockQ2 | WSig2 | WUnlockEv2 | WLockEv3 | WClearRun => true
    case _ => false
  }

  /** Taken off the queue, not yet on the complete list. */
  predicate InTransit(p: WPc) {
    p == WSubmit || InSubmitted(p) || p == WSetRun || InRunning(p) || p == WInsert
  }

  /** The command call of the event in transit has returned. */
  predicate CallReturned(p: WPc) {
    InTransit(p) && p != WSubmit && p != WUnlockQ1 && p != WCall && p != WRet
  }

  predicate CallBegun(p: WPc) { p == WRet || CallReturned(p) }

  function Transit(s: State): seq<Ev> { if InTransit(s.wpc) then [s.ev1] else [] }

  function TransitStatus(p: WPc): int {
    if p == WSubmit then QUEUED
    else if InSubmitted(p) || p == WSetRun then SUBMITTED
    else RUNNING
  }

  // ---- order of service

  ghost predicate FifoInv(s: State) {
    && s.h.enq == s.h.finished + Transit(s) + s.q.queued
    && Distinct(s.h.enq)
    && s.h.called == s.h.finished + (if CallReturned(s.wpc) then [s.ev1] else [])
    && s.h.began == s.h.finished + (if CallBegun(s.wpc) then [s.ev1] else [])
  }

  predicate SlotInv(s: State) {
    && s.wpc != WCrash
    && s.q.submitted == (if InSubmitted(s.wpc) then Some(s.ev1) else None)
    && s.q.running == (if InRunning(s.wpc) then Some(s.ev1) else None)
    && (s.wpc == WLockEv1 || s.wpc == WRemove ==> s.q.queued != [] && s.q.queued[0] == s.ev1)
    && (s.wpc == WSigQ || s.wpc == WWait ==> s.q.queued == [])
  }

  ghost predicate StatusInv(s: State) {
    && (forall e :: e in s.h.finished ==> e in s.q.stat && s.q.stat[e] == COMPLETE)
    && (forall e :: e in s.q.queued ==> e in s.q.stat && s.q.stat[e] == QUEUED)
    && (InTransit(s.wpc) ==> s.ev1 in s.q.stat && s.q.stat[s.ev1] == TransitStatus(s.wpc))
  }

  ghost predicate CompleteInv(s: State) {
    && Distinct(s.q.complete)
    && forall e :: e in s.q.complete ==> e in s.h.finished
  }

  ghost predicate ServiceInv(s: State) {
    FifoInv(s) && SlotInv(s) && StatusInv(s) && CompleteInv(s)
  }

  // ---- what each client may rely on

  /** Events at positions below k are off the queue. */
  predicate OffQueue(s: State, k: nat) { k <= |s.h.finished| + |Transit(s)| }

  ghost predicate ClientInv(s: State, p: CPc) {
    match p
    case EnqLock(e) => e in s.h.reserved && e !in s.h.enq
    case EnqInsert(e) => e in s.h.reserved && e !in s.h.enq
    case EnqSig(e) => e in s.h.enq
    case EnqUnlock(e) => e in s.h.enq
    case EnqDone(e) => e in s.h.enq
    case FnLock(k) => k <= |s.h.enq|
    case FnTest(k) => k <= |s.h.enq|
    case FnWait(k) => k <= |s.h.enq|
    case FnSleep(k) => k <= |s.h.enq|
    case FnWake(k) => k <= |s.h.enq|
    case FnUnlock(k) => k <= |s.h.finished| && s.h.finished == s.h.enq
    case FnDone(k) => k <= |s.h.finished|
    case WtLock(e) => e in s.h.enq
    case WtTest(e) => e in s.h.enq
    case WtWait(e) => e in s.h.enq
    case WtSleep(e) => e in s.h.enq
    case WtWake(e) => e in s.h.enq
    case WtUnlock(e) => e in s.h.finished
    case WtDone(e) => e in s.h.finished
    case RlLock(e) => e in s.q.complete
    case RlRemove(e) => e in s.q.complete
    case PlSub(k) => OffQueue(s, k)
    case PlRun(k, w) => OffQueue(s, k) && (!w ==> k <= |s.h.called|)
    case PlDone(k, w) => OffQueue(s, k) && (!w ==> k <= |s.h.called|)
    case _ => true
  }

  predicate Enqueues(p: CPc, e: Ev) { p == EnqLock(e) || p == EnqInsert(e) }

  ghost predicate ClientsInv(s: State) {
    && (forall c :: c in s.cl ==> ClientInv(s, s.cl[c]))
    && (forall e :: e in s.h.enq ==> e in s.h.reserved)
    && (forall c, d, e {:trigger Enqueues(s.cl[c], e), Enqueues(s.cl[d], e)} ::
          c in s.cl && d in s.cl && Enqueues(s.cl[c], e) && Enqueues(s.cl[d], e) ==> c == d)
    && (forall c, d, e {:trigger Releases(s.cl[c], e), Releases(s.cl[d], e)} ::
          c in s.cl && d in s.cl && Releases(s.cl[c], e) && Releases(s.cl[d], e) ==> c == d)
  }

  ghost predicate Inv(s: State) { LockInv(s) && ServiceInv(s) && ClientsInv(s) }

  lemma {:induction false} InitInv(clients: set<nat>)
    ensures Inv(Init(clients))
  {
  }

  // ---- mutual exclusion is kept

  /** Taking, dropping and keeping a mutex agree with the instruction at the program counter. */
  predicate HoldsAfter(i: Instr, before: bool, m: Mutex, after: bool) {
    match i
    case Lock(l) => !(before && m == l) && (after <==> before || m == l)
    case Unlock(l) => (m == l ==> before) && (after <==> before && m != l)
    case Wait(l) => (m == l ==> before) && (after <==> before && m != l)
    case _ => after == before
  }

  lemma {:induction false} WorkerHolds(p: WPc, e: Ev, m: Mutex)
    ensures WInstr(p, e) != Data ==> HoldsAfter(WInstr(p, e), WHolds(p, e, m), m, WHolds(WNext(p), e, m))
  {
  }

  lemma {:induction false} ClientHolds(p: CPc, m: Mutex)
    ensures CInstr(p) != Data ==> HoldsAfter(CInstr(p), CHolds(p, m), m, CHolds(CNext(p), m))
  {
  }

  lemma {:induction false} WorkerDataHolds(s: State, m: Mutex)
    requires WInstr(s.wpc, s.ev1) == Data && SlotInv(s)
    ensures var s' := WorkerData(s);
      WHolds(s'.wpc, s'.ev1, m) == WHolds(s.wpc, s.ev1, m) && s'.cl == s.cl && s'.owner == s.owner
  {
    hide Remove, Submit, Run, Complete;
  }

  lemma {:induction false} ClientDataHolds(s: State, c: nat, m: Mutex)
    requires c in s.cl && CInstr(s.cl[c]) == Data
    ensures var s' := ClientData(s, c);
      && c in s'.cl && s'.cl == s.cl[c := s'.cl[c]]
      && CHolds(s'.cl[c], m) == CHolds(s.cl[c], m)
      && s'.wpc == s.wpc && s'.ev1 == s.ev1 && s'.owner == s.owner
  {
    hide ClientData, CHolds;
    ClientDataMoves(s, c);
    ClientDataHoldsSame(s, c, m);
  }

  lemma {:induction false} ClientDataMoves(s: State, c: nat)
    requires c in s.cl && CInstr(s.cl[c]) == Data
    ensures var s' := ClientData(s, c);
      && c in s'.cl && s'.cl == s.cl[c := s'.cl[c]]
      && s'.wpc == s.wpc && s'.ev1 == s.ev1 && s'.owner == s.owner
  {
  }

  lemma {:induction false} ClientDataHoldsSame(s: State, c: nat, m: Mutex)
    requires c in s.cl && CInstr(s.cl[c]) == Data
    ensures c in ClientData(s, c).cl && CHolds(ClientData(s, c).cl[c], m) == CHolds(s.cl[c], m)
  {
  }

  lemma {:induction false} AdvanceHolds(s: State, t: Thread, u: Thread, m: Mutex)
    requires IsThread(s, t) && InstrOf(s, t) != Data
    ensures var s' := Advance(s, t);
      && s'.owner == s.owner
      && (u == t ==> HoldsAfter(InstrOf(s, t), Holds(s, t, m), m, Holds(s', t, m)))
      && (u != t ==>
            && Holds(s', u, m) == Holds(s, u, m)
            && (IsThread(s, u) ==> IsThread(s', u) && InstrOf(s', u) == InstrOf(s, u)))
  {
    WorkerHolds(s.wpc, s.ev1, m);
    if t.Client? { ClientHolds(s.cl[t.id], m); }
  }

  lemma {:induction false} BeginHolds(s: State, c: nat, op: Op, u: Thread, m: Mutex)
    requires c in s.cl && s.cl[c] == CIdle
    ensures var s' := BeginStep(s, c, op);
      s'.owner == s.owner && Holds(s', u, m) == Holds(s, u, m)
  {
    assert BeginStep(s, c, op).cl == s.cl[c := BeginStep(s, c, op).cl[c]];
  }

  lemma {:induction false} ReturnHolds(s: State, c: nat, u: Thread, m: Mutex)
    requires c in s.cl && CInstr(s.cl[c]) == Stop
    ensures ReturnStep(s, c).owner == s.owner && Holds(ReturnStep(s, c), u, m) == Holds(s, u, m)
  {
  }

  lemma {:induction false} LockStep(s: State, a: Action)
    requires LockInv(s) && SlotInv(s) && Enabled(s, a)
    ensures LockInv(Step(s, a))
  {
    var s' := Step(s, a);
    forall u, m ensures Holds(s', u, m) <==> m in s'.owner && s'.owner[m] == u {
      assert Holds(s, u, m) <==> m in s.owner && s.owner[m] == u;
      LockStepFor(s, a, u, m);
    }
  }

  lemma {:induction false} LockDo(s: State, t: Thread, wakes: Option<Thread>, u: Thread, m: Mutex)
    requires SlotInv(s) && CanDo(s, t, wakes)
    requires forall x :: Holds(s, x, m) <==> m in s.owner && s.owner[m] == x
    ensures var s' := DoStep(s, t, wakes); Holds(s', u, m) <==> m in s'.owner && s'.owner[m] == u
  {
    hide SlotInv;
    assert Holds(s, u, m) <==> m in s.owner && s.owner[m] == u;
    assert Holds(s, t, m) <==> m in s.owner && s.owner[m] == t;
    if InstrOf(s, t) == Data {
      LockDoData(s, t, u, m);
    } else if wakes.Some? {
      LockDoWake(s, t, wakes.value, u, m);
    } else {
      LockDoAlone(s, t, u, m);
    }
  }

  lemma {:induction false} LockDoData(s: State, t: Thread, u: Thread, m: Mutex)
    requires SlotInv(s) && IsThread(s, t) && InstrOf(s, t) == Data
    ensures DoStep(s, t, None).owner == s.owner && Holds(DoStep(s, t, None), u, m) == Holds(s, u, m)
  {
    hide WHolds, CHolds, SlotInv, WInstr, CInstr, WorkerData, ClientData;
    if t.Worker? { WorkerDataHolds(s, m); } else { ClientDataHolds(s, t.id, m); }
  }

  lemma {:induction false} LockDoWake(s: State, t: Thread, w: Thread, u: Thread, m: Mutex)
    requires CanDo(s, t, Some(w)) && InstrOf(s, t) != Data
    ensures DoStep(s, t, Some(w)).owner == s.owner && Holds(DoStep(s, t, Some(w)), u, m) == Holds(s, u, m)
  {
    hide WHolds, CHolds, WInstr, CInstr, Holds, Advance;
    AdvanceHolds(s, w, u, m);
    AdvanceHolds(s, w, t, m);
    AdvanceHolds(Advance(s, w), t, u, m);
  }

  lemma {:induction false} LockDoAlone(s: State, t: Thread, u: Thread, m: Mutex)
    requires CanDo(s, t, None) && InstrOf(s, t) != Data
    requires Holds(s, u, m) <==> m in s.owner && s.owner[m] == u
    requires Holds(s, t, m) <==> m in s.owner && s.owner[m] == t
    ensures var s' := DoStep(s, t, None); Holds(s', u, m) <==> m in s'.owner && s'.owner[m] == u
  {
    hide WHolds, CHolds, WInstr, CInstr, WNext, CNext;
    var locked := DoStepOwner(s, t);
    assert DoStep(s, t, None) == Advance(locked, t);
    assert Holds(locked, t, m) == Holds(s, t, m) && InstrOf(locked, t) == InstrOf(s, t);
    assert Holds(locked, u, m) == Holds(s, u, m);
    AdvanceHolds(locked, t, u, m);
    AdvanceHolds(locked, t, t, m);
  }

  /** The mutexes after t's instruction, before its program counter moves. */
  function DoStepOwner(s: State, t: Thread): State
    requires IsThread(s, t)
  {
    match InstrOf(s, t)
    case Lock(m) => s.(owner := s.owner[m := t])
    case Unlock(m) => s.(owner := s.owner - {m})
    case Wait(m) => s.(owner := s.owner - {m})
    case _ => s
  }

  lemma {:induction false} LockStepFor(s: State, a: Action, u: Thread, m: Mutex)
    requires LockInv(s) && SlotInv(s) && Enabled(s, a)
    ensures Holds(Step(s, a), u, m) <==> m in Step(s, a).owner && Step(s, a).owner[m] == u
  {
    hide SlotInv, WHolds, CHolds, WInstr, CInstr, WNext, CNext, MayBegin, DoStep, BeginStep;
    assert Holds(s, u, m) <==> m in s.owner && s.owner[m] == u;
    match a
    case Do(t, wakes) => LockDo(s, t, wakes, u, m);
    case Begin(c, op) => BeginHolds(s, c, op, u, m);
    case Return(c) => ReturnHolds(s, c, u, m);
    case Spurious(t) => AdvanceHolds(s, t, u, m);
  }

  // ---- order of service is kept

  /** What the service invariants see of the worker's position; only Data steps change it. */
  lemma {:induction false} QuietAdvance(p: WPc, e: Ev)
    requires WInstr(p, e) != Data && p != WCrash
    ensures var p' := WNext(p);
      && InTransit(p') == InTransit(p) && InSubmitted(p') == InSubmitted(p)
      && InRunning(p') == InRunning(p) && CallReturned(p') == CallReturned(p)
      && CallBegun(p') == CallBegun(p) && p' != WCrash
      && (InTransit(p) ==> TransitStatus(p') == TransitStatus(p))
      && (p' == WLockEv1 || p' == WRemove ==> p == WLockEv1 || p == WRemove)
      && (p' == WSigQ || p' == WWait ==> p == WSigQ || p == WWait)
  {
  }

  /** Everything but the worker's data steps and the clients' writes leaves service alone. */
  ghost predicate SameService(s: State, s': State) {
    && s'.q == s.q && s'.ev1 == s.ev1
    && s'.h.(reserved := s.h.reserved, created := s.h.created) == s.h
    && (s'.wpc == s.wpc || (WInstr(s.wpc, s.ev1) != Data && s'.wpc == WNext(s.wpc)))
  }

  lemma {:induction false} ServiceQuiet(s: State, s': State)
    requires ServiceInv(s) && SameService(s, s')
    ensures ServiceInv(s')
  {
    if s'.wpc != s.wpc { QuietAdvance(s.wpc, s.ev1); }
  }

  lemma {:induction false} ServiceParts(s: State)
    requires FifoInv(s)
    ensures Distinct(s.h.finished) && Distinct(s.q.queued)
    ensures InTransit(s.wpc) ==> s.ev1 !in s.h.finished && s.ev1 !in s.q.queued
    ensures forall e :: e in s.h.finished ==> e !in s.q.queued
  {
    DistinctParts(s.h.finished, Transit(s), s.q.queued);
    assert InTransit(s.wpc) ==> s.ev1 in Transit(s);
  }

  lemma {:induction false} BranchEffect(s: State)
    requires SlotInv(s) && (s.wpc == WIdle || s.wpc == WLoop || s.wpc == WHead)
    ensures var s' := WorkerData(s);
      && SlotInv(s') && s' == s.(wpc := s'.wpc, ev1 := s'.ev1)
      && !InTransit(s.wpc) && !InTransit(s'.wpc) && !CallBegun(s.wpc) && !CallBegun(s'.wpc)
  {
  }

  lemma {:induction false} ServiceBranch(s: State)
    requires ServiceInv(s) && (s.wpc == WIdle || s.wpc == WLoop || s.wpc == WHead)
    ensures ServiceInv(WorkerData(s))
  {
    hide WorkerData, SlotInv, InTransit, CompleteInv;
    BranchEffect(s);
    assert CompleteInv(WorkerData(s)) by { CompleteUnmoved(s, WorkerData(s)); }
  }

  lemma {:induction false} CompleteUnmoved(s: State, s': State)
    requires CompleteInv(s) && s'.q.complete == s.q.complete && s'.h.finished == s.h.finished
    ensures CompleteInv(s')
  {
  }

  lemma {:induction false} ServiceCall(s: State)
    requires ServiceInv(s) && (s.wpc == WCall || s.wpc == WRet)
    ensures ServiceInv(WorkerData(s))
  {
  }

  lemma {:induction false} RemoveEffect(s: State)
    requires SlotInv(s) && s.wpc == WRemove
    ensures s.q.queued != [] && s.q.queued[0] == s.ev1
    ensures var s' := WorkerData(s);
      && s'.h == s.h && s'.ev1 == s.ev1 && s'.wpc == WSubmit && s'.q == s.q.(queued := s.q.queued[1..])
  {
  }

  lemma {:induction false} HeadMoves(f: seq<Ev>, x: Ev, q: seq<Ev>)
    requires q != [] && q[0] == x
    ensures f + [] + q == f + [x] + q[1..]
    ensures forall e :: e in q[1..] ==> e in q
  {
  }

  lemma {:induction false} FifoRemove(s: State)
    requires FifoInv(s) && SlotInv(s) && s.wpc == WRemove
    ensures FifoInv(WorkerData(s))
  {
    hide WorkerData, SlotInv, Distinct;
    RemoveEffect(s);
    HeadMoves(s.h.finished, s.ev1, s.q.queued);
  }

  lemma {:induction false} StatusRemove(s: State)
    requires StatusInv(s) && FifoInv(s) && SlotInv(s) && s.wpc == WRemove
    ensures StatusInv(WorkerData(s))
  {
    hide FifoInv, WorkerData, SlotInv, InSubmitted, InRunning;
    RemoveEffect(s);
    HeadMoves(s.h.finished, s.ev1, s.q.queued);
    assert s.ev1 in s.q.queued;
  }

  lemma {:induction false} ServiceRemove(s: State)
    requires ServiceInv(s) && s.wpc == WRemove
    ensures ServiceInv(WorkerData(s))
  {
    hide FifoInv, StatusInv;
    FifoRemove(s);
    StatusRemove(s);
  }

  lemma {:induction false} MoveEffect(s: State)
    requires SlotInv(s)
    requires s.wpc == WSubmit || s.wpc == WClearSub || s.wpc == WSetRun || s.wpc == WClearRun
    ensures var s' := WorkerData(s);
      && SlotInv(s') && s'.h == s.h && s'.ev1 == s.ev1 && Transit(s') == Transit(s)
      && s'.q.queued == s.q.queued && s'.q.complete == s.q.complete
      && CallReturned(s'.wpc) == CallReturned(s.wpc) && CallBegun(s'.wpc) == CallBegun(s.wpc)
      && InTransit(s.wpc) && InTransit(s'.wpc)
      && (s'.q.stat == s.q.stat[s.ev1 := TransitStatus(s'.wpc)]
          || (s'.q.stat == s.q.stat && TransitStatus(s'.wpc) == TransitStatus(s.wpc)))
  {
  }

  lemma {:induction false} ServiceMove(s: State)
    requires ServiceInv(s)
    requires s.wpc == WSubmit || s.wpc == WClearSub || s.wpc == WSetRun || s.wpc == WClearRun
    ensures ServiceInv(WorkerData(s))
  {
    hide WorkerData, SlotInv, CompleteInv, Distinct, Transit, TransitStatus, InTransit;
    MoveEffect(s);
    ServiceParts(s);
    CompleteUnmoved(s, WorkerData(s));
  }

  lemma {:induction false} InsertEffect(s: State)
    requires SlotInv(s) && s.wpc == WInsert
    ensures var s' := WorkerData(s);
      && SlotInv(s') && s'.ev1 == s.ev1 && InTransit(s.wpc) && !InTransit(s'.wpc) && !CallBegun(s'.wpc)
      && s'.h == s.h.(finished := s.h.finished + [s.ev1])
      && s'.q.queued == s.q.queued && s'.q.complete == s.q.complete + [s.ev1]
      && s'.q.stat == s.q.stat[s.ev1 := COMPLETE]
  {
  }

  lemma {:induction false} FifoInsert(s: State)
    requires FifoInv(s) && SlotInv(s) && s.wpc == WInsert
    ensures FifoInv(WorkerData(s))
  {
    hide WorkerData, SlotInv, Distinct;
    InsertEffect(s);
    assert s.h.finished + Transit(s) == s.h.finished + [s.ev1];
  }

  lemma {:induction false} CompleteInsert(s: State)
    requires FifoInv(s) && SlotInv(s) && CompleteInv(s) && s.wpc == WInsert
    ensures CompleteInv(WorkerData(s))
  {
    hide WorkerData, SlotInv, FifoInv;
    InsertEffect(s);
    ServiceParts(s);
    DistinctAppend(s.q.complete, s.ev1);
  }

  lemma {:induction false} ServiceInsert(s: State)
    requires ServiceInv(s) && s.wpc == WInsert
    ensures ServiceInv(WorkerData(s))
  {
    hide WorkerData, SlotInv, FifoInv, CompleteInv;
    InsertEffect(s);
    ServiceParts(s);
    FifoInsert(s);
    CompleteInsert(s);
  }

  lemma {:induction false} ServiceWorkerData(s: State)
    requires ServiceInv(s) && WInstr(s.wpc, s.ev1) == Data
    ensures ServiceInv(WorkerData(s))
  {
    match s.wpc
    case WIdle | WLoop | WHead => ServiceBranch(s);
    case WCall | WRet => ServiceCall(s);
    case WRemove => ServiceRemove(s);
    case WInsert => ServiceInsert(s);
    case _ => ServiceMove(s);
  }

  lemma {:induction false} ServiceEnqueue(s: State, c: nat)
    requires Inv(s) && c in s.cl && s.cl[c].EnqInsert?
    ensures ServiceInv(ClientData(s, c))
  {
    var e := s.cl[c].e;
    assert Holds(s, Client(c), MQ);
    assert !Holds(s, Worker, MQ);
    assert e !in s.h.enq by { assert ClientInv(s, s.cl[c]); }
    DistinctAppend(s.h.enq, e);
    assert InTransit(s.wpc) ==> s.ev1 in s.h.enq by {
      assert InTransit(s.wpc) ==> s.ev1 in Transit(s);
    }
  }

  lemma {:induction false} ServiceClientQuiet(s: State, c: nat)
    requires ServiceInv(s) && c in s.cl && CInstr(s.cl[c]) == Data
    requires var p := s.cl[c]; !p.EnqInsert? && !p.RlRemove? && !p.CrSet? && !p.RqSet?
    ensures ServiceInv(ClientData(s, c))
  {
    ServiceQuiet(s, ClientData(s, c));
  }

  lemma {:induction false} ServiceRelease(s: State, c: nat)
    requires ServiceInv(s) && c in s.cl && s.cl[c].RlRemove?
    ensures ServiceInv(ClientData(s, c))
  {
    UnlinkKeepsDistinct(s.q.complete, s.cl[c].e);
  }

  lemma {:induction false} ServiceQstat(s: State, c: nat)
    requires ServiceInv(s) && c in s.cl && (s.cl[c].CrSet? || s.cl[c].RqSet?)
    ensures ServiceInv(ClientData(s, c))
  {
  }

  lemma {:induction false} ServiceClientData(s: State, c: nat)
    requires Inv(s) && c in s.cl && CInstr(s.cl[c]) == Data
    ensures ServiceInv(ClientData(s, c))
  {
    hide LockInv, ClientsInv, ServiceInv, ClientData;
    var p := s.cl[c];
    if p.EnqInsert? {
      ServiceEnqueue(s, c);
    } else if p.RlRemove? {
      ServiceRelease(s, c);
    } else if p.CrSet? || p.RqSet? {
      ServiceQstat(s, c);
    } else {
      ServiceClientQuiet(s, c);
    }
  }

  lemma {:induction false} DoQuiet(s: State, t: Thread, wakes: Option<Thread>)
    requires CanDo(s, t, wakes) && InstrOf(s, t) != Data
    ensures SameService(s, DoStep(s, t, wakes))
  {
  }

  lemma {:induction false} ServiceStep(s: State, a: Action)
    requires Inv(s) && Enabled(s, a)
    ensures ServiceInv(Step(s, a))
  {
    match a
    case Do(t, wakes) =>
      if InstrOf(s, t) != Data {
        DoQuiet(s, t, wakes);
        ServiceQuiet(s, Step(s, a));
      } else if t.Worker? {
        ServiceWorkerData(s);
      } else {
        ServiceClientData(s, t.id);
      }
    case _ => ServiceQuiet(s, Step(s, a));
  }

  // ---- the clients' knowledge is kept

  /** No step undoes anything: history only grows, and events only move forward. */
  ghost predicate Progress(s: State, s': State) {
    && s.h.enq <= s'.h.enq && s.h.finished <= s'.h.finished && s.h.called <= s'.h.called
    && |s.h.finished| + |Transit(s)| <= |s'.h.finished| + |Transit(s')|
    && s.h.reserved <= s'.h.reserved
  }

  lemma {:induction false} ProgressQuiet(s: State, s': State)
    requires s.wpc != WCrash && SameService(s, s') && s.h.reserved <= s'.h.reserved
    ensures Progress(s, s')
  {
    if s'.wpc != s.wpc { QuietAdvance(s.wpc, s.ev1); }
  }

  lemma {:induction false} ProgressData(s: State, t: Thread)
    requires IsThread(s, t) && InstrOf(s, t) == Data && SlotInv(s)
    ensures Progress(s, DoStep(s, t, None))
  {
    hide WorkerData, ClientData, SlotInv, InTransit;
    if t.Worker? { ProgressWorkerData(s); } else { ProgressClientData(s, t.id); }
  }

  lemma {:induction false} ProgressWorkerData(s: State)
    requires WInstr(s.wpc, s.ev1) == Data && SlotInv(s)
    ensures Progress(s, WorkerData(s))
  {
    hide Unlink;
  }

  lemma {:induction false} ProgressClientData(s: State, c: nat)
    requires c in s.cl && CInstr(s.cl[c]) == Data
    ensures Progress(s, ClientData(s, c))
  {
    hide InTransit, Unlink;
  }

  lemma {:induction false} ProgressStep(s: State, a: Action)
    requires SlotInv(s) && Enabled(s, a)
    ensures Progress(s, Step(s, a))
  {
    match a
    case Do(t, wakes) =>
      if InstrOf(s, t) == Data {
        ProgressData(s, t);
      } else {
        DoQuiet(s, t, wakes);
        ProgressQuiet(s, Step(s, a));
      }
    case _ => ProgressQuiet(s, Step(s, a));
  }

  lemma {:induction false} KnowledgeGrows(s: State, s': State, p: CPc)
    requires Progress(s, s') && ClientInv(s, p)
    requires !p.EnqLock? && !p.EnqInsert? && !p.FnUnlock? && !p.RlLock? && !p.RlRemove?
    ensures ClientInv(s', p) && ClientInv(s', CNext(p))
  {
    assert forall e :: e in s.h.enq ==> e in s'.h.enq;
    assert forall e :: e in s.h.finished ==> e in s'.h.finished;
  }

  /** The enqueued and finished lists change only under the queue mutex. */
  lemma {:induction false} HeldFreezes(s: State, a: Action, c: nat)
    requires Inv(s) && Enabled(s, a) && c in s.cl && CHoldsQ(s.cl[c])
    requires !(a.Do? && a.t == Client(c))
    ensures Step(s, a).h.enq == s.h.enq && Step(s, a).h.finished == s.h.finished
  {
    hide ServiceInv, ClientsInv, WNext, CNext;
    assert Holds(s, Client(c), MQ);
    match a
    case Do(t, wakes) =>
      assert !Holds(s, t, MQ);
      if InstrOf(s, t) != Data { DoQuiet(s, t, wakes); }
    case _ =>
  }

  lemma {:induction false} EnqueueGrows(s: State, a: Action, e: Ev)
    requires Enabled(s, a) && e in Step(s, a).h.enq && e !in s.h.enq
    ensures a.Do? && a.t.Client? && s.cl[a.t.id] == EnqInsert(e)
  {
    match a
    case Do(t, wakes) =>
      if InstrOf(s, t) != Data { DoQuiet(s, t, wakes); }
    case _ =>
  }

  /** Only its own release takes an event off the complete list. */
  lemma {:induction false} CompleteShrinks(s: State, a: Action, e: Ev)
    requires Enabled(s, a) && e in s.q.complete && e !in Step(s, a).q.complete
    ensures a.Do? && a.t.Client? && s.cl[a.t.id] == RlRemove(e)
  {
    hide Unlink, WInstr, CNext, WNext;
    match a
    case Do(t, wakes) =>
      if InstrOf(s, t) != Data {
        DoQuiet(s, t, wakes);
      } else if t.Client? && s.cl[t.id].RlRemove? {
        if s.cl[t.id].e != e { UnlinkOthers(s.q.complete, s.cl[t.id].e, e); }
      }
    case _ =>
  }

  lemma {:induction false} UnlinkOthers(l: seq<Ev>, e: Ev, x: Ev)
    requires x in l && x != e
    ensures x in Unlink(l, e)
  {
    if l[0] != e && l[0] != x {
      UnlinkOthers(l[1..], e, x);
    }
  }

  predicate ActsFor(a: Action, c: nat) {
    match a
    case Do(t, _) => t == Client(c)
    case Begin(d, _) => c == d
    case Return(d) => c == d
    case Spurious(_) => false
  }

  /** A data step moves no client but its own. */
  lemma {:induction false} DataFrame(s: State, t: Thread)
    requires IsThread(s, t) && InstrOf(s, t) == Data
    ensures var s' := DoStep(s, t, None);
      if t.Worker? then s'.cl == s.cl else t.id in s'.cl && s'.cl == s.cl[t.id := s'.cl[t.id]]
  {
    if t.Client? { ClientDataHolds(s, t.id, MQ); }
  }

  lemma {:induction false} SyncFrame(s: State, t: Thread, wakes: Option<Thread>, c: nat)
    requires CanDo(s, t, wakes) && InstrOf(s, t) != Data && c in s.cl && t != Client(c)
    ensures var s' := DoStep(s, t, wakes);
      c in s'.cl && s'.cl[c] == if wakes == Some(Client(c)) then CNext(s.cl[c]) else s.cl[c]
    ensures wakes == Some(Client(c)) ==> CInstr(s.cl[c]).Sleep?
  {
    hide WInstr, WNext, CNext, WorkerData, ClientData;
  }

  lemma {:induction false} BystanderPc(s: State, a: Action, c: nat)
    requires Enabled(s, a) && c in s.cl && !ActsFor(a, c)
    ensures var s' := Step(s, a);
      c in s'.cl && (s'.cl[c] == s.cl[c] || (CInstr(s.cl[c]).Sleep? && s'.cl[c] == CNext(s.cl[c])))
  {
    match a
    case Do(t, wakes) => if InstrOf(s, t) == Data { DataFrame(s, t); } else { SyncFrame(s, t, wakes, c); }
    case Begin(d, op) => assert BeginStep(s, d, op).cl == s.cl[d := BeginStep(s, d, op).cl[d]];
    case Return(d) =>
    case Spurious(t) =>
  }

  lemma {:induction false} EnqueuerKept(s: State, a: Action, c: nat)
    requires ClientsInv(s) && Enabled(s, a) && c in s.cl && !ActsFor(a, c)
    requires s.cl[c].EnqLock? || s.cl[c].EnqInsert?
    ensures s.cl[c].e !in Step(s, a).h.enq
  {
    var e := s.cl[c].e;
    assert ClientInv(s, s.cl[c]);
    if e in Step(s, a).h.enq {
      EnqueueGrows(s, a, e);
      assert Enqueues(s.cl[a.t.id], e) && Enqueues(s.cl[c], e);
    }
  }

  lemma {:induction false} ReleaserKept(s: State, a: Action, c: nat)
    requires ClientsInv(s) && Enabled(s, a) && c in s.cl && !ActsFor(a, c)
    requires s.cl[c].RlLock? || s.cl[c].RlRemove?
    ensures s.cl[c].e in Step(s, a).q.complete
  {
    var e := s.cl[c].e;
    assert ClientInv(s, s.cl[c]);
    if e !in Step(s, a).q.complete {
      CompleteShrinks(s, a, e);
      assert Releases(s.cl[a.t.id], e) && Releases(s.cl[c], e);
    }
  }

  lemma {:induction false} BystanderKept(s: State, a: Action, c: nat)
    requires Inv(s) && Enabled(s, a) && c in s.cl && !ActsFor(a, c)
    ensures c in Step(s, a).cl && ClientInv(Step(s, a), Step(s, a).cl[c])
  {
    hide LockInv, FifoInv, StatusInv, CompleteInv, SlotInv, Enabled, Step;
    var s', p := Step(s, a), s.cl[c];
    BystanderPc(s, a, c);
    ProgressStep(s, a);
    assert ClientInv(s, p);
    if p.FnUnlock? {
      HeldFreezes(s, a, c);
    } else if p.EnqLock? || p.EnqInsert? {
      EnqueuerKept(s, a, c);
    } else if p.RlLock? || p.RlRemove? {
      ReleaserKept(s, a, c);
    } else {
      KnowledgeGrows(s, s', p);
    }
  }

  /** An event known complete is in the finished list, and the converse holds by StatusInv. */
  lemma {:induction false} CompleteMeansFinished(s: State, e: Ev)
    requires ServiceInv(s) && e in s.h.enq && e in s.q.stat && s.q.stat[e] == COMPLETE
    ensures e in s.h.finished
  {
    assert e in s.h.finished || e in Transit(s) || e in s.q.queued;
  }

  /** Under the queue mutex, empty slots mean that nothing is in transit. */
  lemma {:induction false} EmptySlotsMeanIdle(s: State)
    requires SlotInv(s) && !WHoldsQ(s.wpc) && s.q.submitted == None && s.q.running == None
    ensures Transit(s) == []
  {
  }

  lemma {:induction false} ActorInsert(s: State, c: nat)
    requires c in s.cl && s.cl[c].EnqInsert?
    ensures var s' := ClientData(s, c); c in s'.cl && ClientInv(s', s'.cl[c])
  {
    var s' := ClientData(s, c);
    assert s.cl[c].e == s'.h.enq[|s.h.enq|];
  }

  lemma {:induction false} ActorFinish(s: State, c: nat)
    requires LockInv(s) && ServiceInv(s) && c in s.cl && s.cl[c].FnTest? && ClientInv(s, s.cl[c])
    ensures var s' := ClientData(s, c); c in s'.cl && ClientInv(s', s'.cl[c])
  {
    hide StatusInv, CompleteInv;
    assert Holds(s, Client(c), MQ);
    assert !Holds(s, Worker, MQ);
    if s.q.queued == [] && s.q.submitted == None && s.q.running == None {
      EmptySlotsMeanIdle(s);
    }
  }

  lemma {:induction false} ActorWait(s: State, c: nat)
    requires ServiceInv(s) && c in s.cl && s.cl[c].WtTest? && ClientInv(s, s.cl[c])
    ensures var s' := ClientData(s, c); c in s'.cl && ClientInv(s', s'.cl[c])
  {
    hide ServiceInv;
    var e := s.cl[c].e;
    if e in s.q.stat && s.q.stat[e] == COMPLETE {
      CompleteMeansFinished(s, e);
    }
  }

  lemma {:induction false} ActorPoll(s: State, c: nat)
    requires FifoInv(s) && SlotInv(s) && c in s.cl && ClientInv(s, s.cl[c])
    requires s.cl[c].PlHead? || s.cl[c].PlSub? || s.cl[c].PlRun?
    ensures var s' := ClientData(s, c); c in s'.cl && ClientInv(s', s'.cl[c])
  {
  }

  lemma {:induction false} ActorPlain(s: State, c: nat)
    requires c in s.cl && CInstr(s.cl[c]) == Data
    requires s.cl[c].CrSet? || s.cl[c].RqSet? || s.cl[c].RqJoin? || s.cl[c].RlRemove?
    ensures var s' := ClientData(s, c); c in s'.cl && ClientInv(s', s'.cl[c])
  {
  }

  lemma {:induction false} ActorData(s: State, c: nat)
    requires Inv(s) && c in s.cl && CInstr(s.cl[c]) == Data
    ensures var s' := ClientData(s, c); c in s'.cl && ClientInv(s', s'.cl[c])
  {
    hide LockInv, FifoInv, SlotInv, StatusInv, CompleteInv, ClientData, ClientInv;
    var p := s.cl[c];
    assert ClientInv(s, p);
    if p.EnqInsert? {
      ActorInsert(s, c);
    } else if p.FnTest? {
      ActorFinish(s, c);
    } else if p.WtTest? {
      ActorWait(s, c);
    } else if p.PlHead? || p.PlSub? || p.PlRun? {
      ActorPoll(s, c);
    } else {
      ActorPlain(s, c);
    }
  }

  lemma {:induction false} ActorSync(s: State, c: nat, wakes: Option<Thread>)
    requires Inv(s) && c in s.cl && CanDo(s, Client(c), wakes) && CInstr(s.cl[c]) != Data
    ensures var s' := DoStep(s, Client(c), wakes); c in s'.cl && ClientInv(s', s'.cl[c])
  {
    var p := s.cl[c];
    var s' := DoStep(s, Client(c), wakes);
    assert ClientInv(s, p);
    assert s'.cl[c] == CNext(p);
    DoQuiet(s, Client(c), wakes);
    ProgressQuiet(s, s');
    if !p.EnqLock? && !p.FnUnlock? && !p.RlLock? { KnowledgeGrows(s, s', p); }
  }

  lemma {:induction false} ActorBegin(s: State, c: nat, op: Op)
    requires ClientsInv(s) && c in s.cl && MayBegin(s, op)
    ensures var s' := BeginStep(s, c, op); c in s'.cl && ClientInv(s', s'.cl[c])
  {
  }

  lemma {:induction false} ActorKept(s: State, a: Action, c: nat)
    requires Inv(s) && Enabled(s, a) && c in s.cl && ActsFor(a, c)
    ensures c in Step(s, a).cl && ClientInv(Step(s, a), Step(s, a).cl[c])
  {
    hide LockInv, ServiceInv, ClientsInv, ClientData, BeginStep, MayBegin, CInstr;
    match a
    case Do(t, wakes) =>
      if CInstr(s.cl[c]) == Data { ActorData(s, c); } else { ActorSync(s, c, wakes); }
    case Begin(_, op) => ActorBegin(s, c, op);
    case Return(_) =>
    case Spurious(_) =>
  }

  lemma {:induction false} ActorEnqueuer(s: State, a: Action, c: nat, e: Ev)
    requires Enabled(s, a) && c in s.cl && ActsFor(a, c)
    requires c in Step(s, a).cl && Enqueues(Step(s, a).cl[c], e)
    ensures Enqueues(s.cl[c], e) || a == Begin(c, OpEnqueue(e))
  {
    if a.Do? && CInstr(s.cl[c]) != Data { assert Step(s, a).cl[c] == CNext(s.cl[c]); }
  }

  lemma {:induction false} SleepersDoNotEnqueue(p: CPc, e: Ev)
    ensures CInstr(p).Sleep? ==> !Enqueues(CNext(p), e)
  {
  }

  lemma {:induction false} EnqueuerAlone(s: State, a: Action, c: nat, e: Ev)
    requires Enabled(s, a) && c in Step(s, a).cl && Enqueues(Step(s, a).cl[c], e)
    ensures c in s.cl
    ensures Enqueues(s.cl[c], e) || a == Begin(c, OpEnqueue(e))
  {
    hide Enabled, Step, CInstr, CNext;
    StepKeepsClients(s, a);
    if ActsFor(a, c) {
      ActorEnqueuer(s, a, c, e);
    } else {
      BystanderPc(s, a, c);
      SleepersDoNotEnqueue(s.cl[c], e);
    }
  }

  lemma {:induction false} StepKeepsClients(s: State, a: Action)
    requires Enabled(s, a)
    ensures Step(s, a).cl.Keys == s.cl.Keys
  {
    match a
    case Do(t, wakes) => if InstrOf(s, t) == Data { DataFrame(s, t); }
    case Begin(d, op) => assert BeginStep(s, d, op).cl == s.cl[d := BeginStep(s, d, op).cl[d]];
    case Return(d) =>
    case Spurious(t) =>
  }

  lemma {:induction false} ReservedKept(s: State, a: Action)
    requires Inv(s) && Enabled(s, a)
    ensures forall e :: e in Step(s, a).h.enq ==> e in Step(s, a).h.reserved
  {
    ProgressStep(s, a);
    forall e | e in Step(s, a).h.enq ensures e in Step(s, a).h.reserved {
      if e !in s.h.enq {
        EnqueueGrows(s, a, e);
        assert ClientInv(s, s.cl[a.t.id]);
      }
    }
  }

  lemma {:induction false} EnqueuersDistinct(s: State, a: Action)
    requires ClientsInv(s) && Enabled(s, a)
    ensures var cl := Step(s, a).cl;
      forall c, d, e {:trigger Enqueues(cl[c], e), Enqueues(cl[d], e)} ::
        c in cl && d in cl && Enqueues(cl[c], e) && Enqueues(cl[d], e) ==> c == d
  {
    var cl := Step(s, a).cl;
    forall c, d, e | c in cl && d in cl && Enqueues(cl[c], e) && Enqueues(cl[d], e)
      ensures c == d
    {
      EnqueuerAlone(s, a, c, e);
      EnqueuerAlone(s, a, d, e);
      assert ClientInv(s, s.cl[c]) && ClientInv(s, s.cl[d]);
    }
  }

  lemma {:induction false} ActorReleaser(s: State, a: Action, c: nat, e: Ev)
    requires Enabled(s, a) && c in s.cl && ActsFor(a, c)
    requires c in Step(s, a).cl && Releases(Step(s, a).cl[c], e)
    ensures Releases(s.cl[c], e) || a == Begin(c, OpReleaseEvent(e))
  {
    hide WorkerData, WInstr, WNext, MayBegin;
    if a.Do? && CInstr(s.cl[c]) != Data { assert Step(s, a).cl[c] == CNext(s.cl[c]); }
  }

  lemma {:induction false} SleepersDoNotRelease(p: CPc, e: Ev)
    ensures CInstr(p).Sleep? ==> !Releases(CNext(p), e)
  {
  }

  lemma {:induction false} ReleaserAlone(s: State, a: Action, c: nat, e: Ev)
    requires Enabled(s, a) && c in Step(s, a).cl && Releases(Step(s, a).cl[c], e)
    ensures c in s.cl
    ensures Releases(s.cl[c], e) || a == Begin(c, OpReleaseEvent(e))
  {
    hide Enabled, Step, CInstr, CNext;
    StepKeepsClients(s, a);
    if ActsFor(a, c) {
      ActorReleaser(s, a, c, e);
    } else {
      BystanderPc(s, a, c);
      SleepersDoNotRelease(s.cl[c], e);
    }
  }

  lemma {:induction false} ReleasersDistinct(s: State, a: Action)
    requires ClientsInv(s) && Enabled(s, a)
    ensures var cl := Step(s, a).cl;
      forall c, d, e {:trigger Releases(cl[c], e), Releases(cl[d], e)} ::
        c in cl && d in cl && Releases(cl[c], e) && Releases(cl[d], e) ==> c == d
  {
    hide Step;
    var cl := Step(s, a).cl;
    forall c, d, e | c in cl && d in cl && Releases(cl[c], e) && Releases(cl[d], e)
      ensures c == d
    {
      ReleaserAlone(s, a, c, e);
      ReleaserAlone(s, a, d, e);
    }
  }

  lemma {:induction false} ClientsStep(s: State, a: Action)
    requires Inv(s) && Enabled(s, a)
    ensures ClientsInv(Step(s, a))
  {
    var s' := Step(s, a);
    StepKeepsClients(s, a);
    ReservedKept(s, a);
    forall c | c in s'.cl ensures ClientInv(s', s'.cl[c]) {
      if ActsFor(a, c) { ActorKept(s, a, c); } else { BystanderKept(s, a, c); }
    }
    EnqueuersDistinct(s, a);
    ReleasersDistinct(s, a);
  }

  // ---- every run

  lemma {:induction false} InvStep(s: State, a: Action)
    requires Inv(s) && Enabled(s, a)
    ensures Inv(Step(s, a))
  {
    LockStep(s, a);
    ServiceStep(s, a);
    ClientsStep(s, a);
  }

  lemma {:induction false} InvExec(s: State, acts: seq<Action>)
    requires Inv(s) && Exec(s, acts).Some?
    ensures Inv(Exec(s, acts).value)
    decreases acts
  {
    if acts != [] {
      InvStep(s, acts[0]);
      InvExec(Step(s, acts[0]), acts[1..]);
    }
  }
}
