/** Four concrete runs that show where the guarantees of the command queue stop: two blocked
    finishers lose a command, two waiters for one event leave one asleep for ever, a poll
    overlooks an event that is between queue and slot, and the release of a busy queue never
    returns. */
module QueueRuns {
  import opened Basics
  import opened QueueCore
  import opened QueueMachine
  import opened QueueTheorems

  // ---- steps, by kind of instruction

  /** A set of states that the system cannot leave. */
  ghost predicate Closed(R: iset<State>) {
    forall s, a {:trigger Enabled(s, a)} :: s in R && Enabled(s, a) ==> Step(s, a) in R
  }

  lemma {:induction false} Take(R: iset<State>, s: State, a: Action)
    requires Closed(R)
    requires s in R && Enabled(s, a)
    ensures (Step(s, a)) in R
  {
  }

  lemma {:induction false} Acquire(R: iset<State>, s: State, t: Thread, m: Mutex)
    requires Closed(R)
    requires s in R && IsThread(s, t) && InstrOf(s, t) == Lock(m) && m !in s.owner
    ensures (Advance(s.(owner := s.owner[m := t]), t)) in R
  {
    Take(R, s, Do(t, None));
  }

  lemma {:induction false} Drop(R: iset<State>, s: State, t: Thread, m: Mutex)
    requires Closed(R)
    requires s in R && IsThread(s, t)
    requires InstrOf(s, t) == Unlock(m) || InstrOf(s, t) == Wait(m)
    ensures (Advance(s.(owner := s.owner - {m}), t)) in R
  {
    Take(R, s, Do(t, None));
  }

  lemma {:induction false} SignalNobody(R: iset<State>, s: State, t: Thread, m: Mutex)
    requires Closed(R)
    requires s in R && IsThread(s, t) && InstrOf(s, t) == Signal(m)
    requires forall u :: !Asleep(s, u, m)
    ensures (Advance(s, t)) in R
  {
    Take(R, s, Do(t, None));
  }

  lemma {:induction false} SignalOne(R: iset<State>, s: State, t: Thread, m: Mutex, u: Thread)
    requires Closed(R)
    requires s in R && IsThread(s, t) && InstrOf(s, t) == Signal(m) && Asleep(s, u, m)
    ensures (Advance(Advance(s, u), t)) in R
  {
    Take(R, s, Do(t, Some(u)));
  }

  lemma {:induction false} Work(R: iset<State>, s: State)
    requires Closed(R)
    requires s in R && WInstr(s.wpc, s.ev1) == Data
    ensures (WorkerData(s)) in R
  {
    Take(R, s, Do(Worker, None));
  }

  lemma {:induction false} Access(R: iset<State>, s: State, c: nat)
    requires Closed(R)
    requires s in R && c in s.cl && CInstr(s.cl[c]) == Data && DataReady(s, s.cl[c])
    ensures (ClientData(s, c)) in R
  {
    Take(R, s, Do(Client(c), None));
  }

  // ---- whole calls

  lemma {:induction false} SetTwice<K, V>(m: map<K, V>, k: K, v: V, w: V)
    ensures m[k := v][k := w] == m[k := w]
  {
  }

  lemma {:induction false} SetBack<K, V>(m: map<K, V>, k: K, v: V)
    requires k in m
    ensures m[k := v][k := m[k]] == m
  {
  }

  lemma {:induction false} AddRemove<K, V>(m: map<K, V>, k: K, v: V)
    requires k !in m
    ensures m[k := v] - {k} == m
  {
  }

  /** Dropping the queue mutex and returning from a call ends where it began, but for the data. */
  lemma {:induction false} FinishCall(R: iset<State>, s: State, s': State, c: nat, p: CPc)
    requires Closed(R)
    requires c in s.cl && s.cl[c] == CIdle && MQ !in s.owner
    requires CInstr(p) == Unlock(MQ) && CInstr(CNext(p)) == Stop && CNext(p) != CIdle
    requires s' == At(s.(q := s'.q, h := s'.h, owner := s.owner[MQ := Client(c)]), c, p)
    requires s' in R
    ensures (s.(q := s'.q, h := if CNext(p) == CrDone then s'.h.(created := true) else s'.h)) in R
  {
    Drop(R, s', Client(c), MQ);
    AddRemove(s.owner, MQ, Client(c));
    SetTwice(s.cl, c, p, CNext(p));
    SetBack(s.cl, c, CNext(p));
    Take(R, At(s.(q := s'.q, h := s'.h), c, CNext(p)), Return(c));
  }

  lemma {:induction false} NobodyAsleep(s: State, m: Mutex)
    requires !WInstr(s.wpc, s.ev1).Sleep? && forall c :: c in s.cl ==> !CInstr(s.cl[c]).Sleep?
    ensures forall t :: !Asleep(s, t, m)
  {
  }

  lemma {:induction false} CreateRun(R: iset<State>, s: State, c: nat)
    requires Closed(R)
    requires s in R && c in s.cl && s.owner == map[] && s.q.qstat == 0 && s.wpc == WStart
    requires forall d :: d in s.cl ==> s.cl[d] == CIdle
    ensures (s.(q := s.q.(qstat := 1), h := s.h.(created := true))) in R
  {
    var s1 := At(s, c, CrLock);
    Take(R, s, Begin(c, OpCreate));
    Acquire(R, s1, Client(c), MQ);
    var s2 := At(s.(owner := map[MQ := Client(c)]), c, CrSet);
    assert s2.cl == s1.cl[c := CrSet];
    CreateRest(R, s, s2, c);
  }

  lemma {:induction false} CreateRest(R: iset<State>, s: State, s2: State, c: nat)
    requires Closed(R)
    requires c in s.cl && s.owner == map[] && s.wpc == WStart
    requires forall d :: d in s.cl ==> s.cl[d] == CIdle
    requires s2 == At(s.(owner := map[MQ := Client(c)]), c, CrSet) && s2 in R
    ensures (s.(q := s.q.(qstat := 1), h := s.h.(created := true))) in R
  {
    var q := s.q.(qstat := 1);
    Access(R, s2, c);
    SetTwice(s.cl, c, CrSet, CrSig);
    var s3 := At(s.(q := q, owner := map[MQ := Client(c)]), c, CrSig);
    NobodyAsleep(s3, MQ);
    SignalNobody(R, s3, Client(c), MQ);
    SetTwice(s.cl, c, CrSig, CrUnlock);
    FinishCall(R, s, At(s.(q := q, owner := map[MQ := Client(c)]), c, CrUnlock), c, CrUnlock);
  }

  /** An enqueue whose signal goes to the given finisher, or to nobody. */
  lemma {:induction false} EnqueueRun(R: iset<State>, s: State, c: nat, e: Ev, target: Option<nat>)
    requires Closed(R)
    requires s in R && c in s.cl && s.cl[c] == CIdle && MQ !in s.owner
    requires s.h.created && e !in s.h.reserved
    requires target.Some? ==> target.value in s.cl && s.cl[target.value].FnSleep?
    requires target.None? ==> forall t :: !Asleep(s, t, MQ)
    ensures (s.(q := Enqueue(s.q, e), h := s.h.(reserved := s.h.reserved + {e}, enq := s.h.enq + [e]),
         cl := if target.Some? then s.cl[target.value := CNext(s.cl[target.value])] else s.cl)) in R
  {
    var h := s.h.(reserved := s.h.reserved + {e});
    Take(R, s, Begin(c, OpEnqueue(e)));
    var s1 := At(s.(h := h), c, EnqLock(e));
    Acquire(R, s1, Client(c), MQ);
    var o := s.owner[MQ := Client(c)];
    var s2 := At(s.(h := h, owner := o), c, EnqInsert(e));
    assert s2.cl == s1.cl[c := EnqInsert(e)];
    Access(R, s2, c);
    var s3 := At(s.(h := h.(enq := h.enq + [e]), owner := o, q := Enqueue(s.q, e)), c, EnqSig(e));
    assert s3.cl == s2.cl[c := EnqSig(e)];
    EnqueueSignal(R, s, s3, c, e, target);
  }

  lemma {:induction false} EnqueueSignal(R: iset<State>, s: State, s3: State, c: nat, e: Ev, target: Option<nat>)
    requires Closed(R)
    requires s3 in R && c in s.cl && s.cl[c] == CIdle && MQ !in s.owner
    requires target.Some? ==> target.value in s.cl && s.cl[target.value].FnSleep?
    requires target.None? ==> forall t :: !Asleep(s, t, MQ)
    requires s3 == At(s.(h := s3.h, owner := s.owner[MQ := Client(c)], q := s3.q), c, EnqSig(e))
    ensures (s.(q := s3.q, h := s3.h,
         cl := if target.Some? then s.cl[target.value := CNext(s.cl[target.value])] else s.cl)) in R
  {
    if target.Some? {
      var d := target.value;
      var t := s.(cl := s.cl[d := CNext(s.cl[d])]);
      SignalOne(R, s3, Client(c), MQ, Client(d));
      assert Advance(Advance(s3, Client(d)), Client(c)).cl == t.cl[c := EnqUnlock(e)];
      FinishCall(R, t, At(t.(q := s3.q, h := s3.h, owner := s3.owner), c, EnqUnlock(e)), c, EnqUnlock(e));
    } else {
      forall t ensures !Asleep(s3, t, MQ) { assert !Asleep(s, t, MQ); }
      SignalNobody(R, s3, Client(c), MQ);
      SetTwice(s.cl, c, EnqSig(e), EnqUnlock(e));
      FinishCall(R, s, At(s.(q := s3.q, h := s3.h, owner := s3.owner), c, EnqUnlock(e)), c, EnqUnlock(e));
    }
  }

  /** A call of finish that finds the queue busy and falls asleep. */
  lemma {:induction false} FinishRun(R: iset<State>, s: State, c: nat)
    requires Closed(R)
    requires s in R && c in s.cl && s.cl[c] == CIdle && MQ !in s.owner
    requires s.h.created && (s.q.queued != [] || s.q.submitted.Some? || s.q.running.Some?)
    ensures (At(s, c, FnSleep(|s.h.enq|))) in R
  {
    var k := |s.h.enq|;
    Take(R, s, Begin(c, OpFinish));
    FinishSleeps(R, s, c, k, FnLock(k));
  }

  /** From in front of the queue mutex, a finisher that finds the queue busy falls asleep. */
  lemma {:induction false} FinishSleeps(R: iset<State>, s: State, c: nat, k: nat, p: CPc)
    requires Closed(R)
    requires c in s.cl && MQ !in s.owner && (p == FnLock(k) || p == FnWake(k))
    requires s.q.queued != [] || s.q.submitted.Some? || s.q.running.Some?
    requires (At(s, c, p)) in R
    ensures (At(s, c, FnSleep(k))) in R
  {
    Acquire(R, At(s, c, p), Client(c), MQ);
    SetTwice(s.cl, c, p, FnTest(k));
    var o := s.owner[MQ := Client(c)];
    Access(R, At(s.(owner := o), c, FnTest(k)), c);
    SetTwice(s.cl, c, FnTest(k), FnWait(k));
    Drop(R, At(s.(owner := o), c, FnWait(k)), Client(c), MQ);
    AddRemove(s.owner, MQ, Client(c));
    SetTwice(s.cl, c, FnWait(k), FnSleep(k));
  }

  // ---- the worker's part

  const WorkerQ := map[MQ := Worker]

  lemma {:induction false} StartRun(R: iset<State>, s: State)
    requires Closed(R)
    requires s in R && s.wpc == WStart && s.owner == map[] && s.q.qstat == 1
    ensures (s.(wpc := WHead, owner := WorkerQ)) in R
  {
    Acquire(R, s, Worker, MQ);
    Work(R, s.(wpc := WIdle, owner := WorkerQ));
    Drop(R, s.(wpc := WGapUnlock, owner := WorkerQ), Worker, MQ);
    AddRemove(s.owner, MQ, Worker);
    Acquire(R, s.(wpc := WGapLock), Worker, MQ);
    Work(R, s.(wpc := WLoop, owner := WorkerQ));
  }

  function Both(e: Ev): map<Mutex, Thread> { WorkerQ[ME(e) := Worker] }

  function EvOnly(e: Ev): map<Mutex, Thread> { map[ME(e) := Worker] }

  lemma {:induction false} TakeEv(R: iset<State>, s: State)
    requires Closed(R)
    requires s in R && WInstr(s.wpc, s.ev1) == Lock(ME(s.ev1)) && s.owner == WorkerQ
    ensures (s.(owner := Both(s.ev1), wpc := WNext(s.wpc))) in R
  {
    Acquire(R, s, Worker, ME(s.ev1));
  }

  lemma {:induction false} DropEv(R: iset<State>, s: State)
    requires Closed(R)
    requires s in R && WInstr(s.wpc, s.ev1) == Unlock(ME(s.ev1)) && s.owner == Both(s.ev1)
    ensures (s.(owner := WorkerQ, wpc := WNext(s.wpc))) in R
  {
    Drop(R, s, Worker, ME(s.ev1));
    AddRemove(WorkerQ, ME(s.ev1), Worker);
  }

  lemma {:induction false} DropQ(R: iset<State>, s: State)
    requires Closed(R)
    requires s in R && WInstr(s.wpc, s.ev1) == Unlock(MQ) && s.owner == Both(s.ev1)
    ensures (s.(owner := EvOnly(s.ev1), wpc := WNext(s.wpc))) in R
  {
    Drop(R, s, Worker, MQ);
    assert Both(s.ev1) - {MQ} == EvOnly(s.ev1);
  }

  lemma {:induction false} TakeQ(R: iset<State>, s: State)
    requires Closed(R)
    requires s in R && WInstr(s.wpc, s.ev1) == Lock(MQ) && s.owner == EvOnly(s.ev1)
    ensures (s.(owner := Both(s.ev1), wpc := WNext(s.wpc))) in R
  {
    Acquire(R, s, Worker, MQ);
    assert EvOnly(s.ev1)[MQ := Worker] == Both(s.ev1);
  }

  ghost predicate NobodyWaits(cl: map<nat, CPc>, e: Ev) {
    forall c :: c in cl ==> CInstr(cl[c]) != Sleep(ME(e))
  }

  lemma {:induction false} SigEv(R: iset<State>, s: State)
    requires Closed(R)
    requires s in R && WInstr(s.wpc, s.ev1) == Signal(ME(s.ev1)) && NobodyWaits(s.cl, s.ev1)
    ensures (s.(wpc := WNext(s.wpc))) in R
  {
    SignalNobody(R, s, Worker, ME(s.ev1));
  }

  /** From the head of the queue to the submission. */
  lemma {:induction false} HeadRun(R: iset<State>, s: State, e: Ev)
    requires Closed(R)
    requires s in R && s.wpc == WHead && s.owner == WorkerQ && s.q.queued == [e]
    ensures (s.(wpc := WSubmit, ev1 := e, q := s.q.(queued := []), owner := Both(e))) in R
  {
    Work(R, s);
    TakeEv(R, s.(wpc := WLockEv1, ev1 := e));
    Work(R, s.(wpc := WRemove, ev1 := e, owner := Both(e)));
  }

  lemma {:induction false} SubmitRun(R: iset<State>, s: State)
    requires Closed(R)
    requires s in R && s.wpc == WSubmit && s.owner == Both(s.ev1)
    ensures (s.(wpc := WCall, q := Submit(s.q, s.ev1), owner := EvOnly(s.ev1))) in R
  {
    Work(R, s);
    DropQ(R, s.(wpc := WUnlockQ1, q := Submit(s.q, s.ev1)));
  }

  lemma {:induction false} CallRun(R: iset<State>, s: State)
    requires Closed(R)
    requires s in R && s.wpc == WCall
    ensures (s.(wpc := WLockQ1,
      h := s.h.(began := s.h.began + [s.ev1], called := s.h.called + [s.ev1]))) in R
  {
    Work(R, s);
    Work(R, s.(h := s.h.(began := s.h.began + [s.ev1]), wpc := WRet));
  }

  /** The end of the submitted phase. */
  lemma {:induction false} SubmittedRun(R: iset<State>, s: State)
    requires Closed(R)
    requires s in R && s.wpc == WLockQ1 && s.owner == EvOnly(s.ev1) && NobodyWaits(s.cl, s.ev1)
    ensures (s.(wpc := WLockEv2, owner := WorkerQ)) in R
  {
    TakeQ(R, s);
    SigEv(R, s.(wpc := WSig1, owner := Both(s.ev1)));
    DropEv(R, s.(wpc := WUnlockEv1, owner := Both(s.ev1)));
  }

  /** Into the running slot. */
  lemma {:induction false} RunningRun(R: iset<State>, s: State)
    requires Closed(R)
    requires s in R && s.wpc == WLockEv2 && s.owner == WorkerQ && s.q.submitted == Some(s.ev1)
    ensures (s.(wpc := WUnlockQ2, owner := Both(s.ev1), q := Run(ClearSubmitted(s.q), s.ev1))) in R
  {
    TakeEv(R, s);
    Work(R, s.(wpc := WClearSub, owner := Both(s.ev1)));
    Work(R, s.(wpc := WSetRun, owner := Both(s.ev1), q := ClearSubmitted(s.q)));
  }

  /** The end of the running phase. */
  lemma {:induction false} RanRun(R: iset<State>, s: State)
    requires Closed(R)
    requires s in R && s.wpc == WUnlockQ2 && s.owner == Both(s.ev1) && NobodyWaits(s.cl, s.ev1)
    ensures (s.(wpc := WLockEv3, owner := WorkerQ)) in R
  {
    DropQ(R, s);
    TakeQ(R, s.(wpc := WLockQ2, owner := EvOnly(s.ev1)));
    SigEv(R, s.(wpc := WSig2));
    DropEv(R, s.(wpc := WUnlockEv2));
  }

  /** Onto the complete list. */
  lemma {:induction false} InsertRun(R: iset<State>, s: State)
    requires Closed(R)
    requires s in R && s.wpc == WLockEv3 && s.owner == WorkerQ && s.q.running == Some(s.ev1)
    ensures (s.(wpc := WSig3, owner := Both(s.ev1), q := Complete(ClearRunning(s.q), s.ev1),
                h := s.h.(finished := s.h.finished + [s.ev1]))) in R
  {
    TakeEv(R, s);
    Work(R, s.(wpc := WClearRun, owner := Both(s.ev1)));
    Work(R, s.(wpc := WInsert, owner := Both(s.ev1), q := ClearRunning(s.q)));
  }

  /** Completion with no waiter, and back to the head of the inner loop. */
  lemma {:induction false} CompleteRun(R: iset<State>, s: State)
    requires Closed(R)
    requires s in R && s.wpc == WLockEv3 && s.owner == WorkerQ && s.q.running == Some(s.ev1)
    requires NobodyWaits(s.cl, s.ev1)
    ensures (s.(wpc := WHead, q := Complete(ClearRunning(s.q), s.ev1),
                             h := s.h.(finished := s.h.finished + [s.ev1]))) in R
  {
    hide Closed, NobodyWaits, Both, Complete, ClearRunning;
    InsertRun(R, s);
    var s1 := s.(wpc := WSig3, owner := Both(s.ev1), q := Complete(ClearRunning(s.q), s.ev1),
                 h := s.h.(finished := s.h.finished + [s.ev1]));
    SigEv(R, s1);
    DropEv(R, s1.(wpc := WUnlockEv3));
  }

  /** A wait for an event that is not complete, up to its sleep. */
  lemma {:induction false} WaitRun(R: iset<State>, s: State, c: nat, e: Ev)
    requires Closed(R)
    requires s in R && c in s.cl && s.cl[c] == CIdle && ME(e) !in s.owner
    requires s.h.created && e in s.h.enq && e in s.q.stat && s.q.stat[e] != COMPLETE
    ensures (At(s, c, WtSleep(e))) in R
  {
    hide Closed, WInstr, WNext, WorkerData;
    Take(R, s, Begin(c, OpWait(e)));
    Acquire(R, At(s, c, WtLock(e)), Client(c), ME(e));
    SetTwice(s.cl, c, WtLock(e), WtTest(e));
    var o := s.owner[ME(e) := Client(c)];
    Access(R, At(s.(owner := o), c, WtTest(e)), c);
    SetTwice(s.cl, c, WtTest(e), WtWait(e));
    Drop(R, At(s.(owner := o), c, WtWait(e)), Client(c), ME(e));
    AddRemove(s.owner, ME(e), Client(c));
    SetTwice(s.cl, c, WtWait(e), WtSleep(e));
  }

  /** A woken wait that finds its event complete returns. */
  lemma {:induction false} WokenRun(R: iset<State>, s: State, c: nat, e: Ev)
    requires Closed(R)
    requires c in s.cl && s.cl[c] == CIdle && ME(e) !in s.owner && At(s, c, WtWake(e)) in R
    requires e in s.q.stat && s.q.stat[e] == COMPLETE
    ensures s in R
  {
    hide Closed, WInstr, WNext, WorkerData;
    Acquire(R, At(s, c, WtWake(e)), Client(c), ME(e));
    SetTwice(s.cl, c, WtWake(e), WtTest(e));
    var o := s.owner[ME(e) := Client(c)];
    Access(R, At(s.(owner := o), c, WtTest(e)), c);
    SetTwice(s.cl, c, WtTest(e), WtUnlock(e));
    WaitReturns(R, s, c, e);
  }

  lemma {:induction false} WaitReturns(R: iset<State>, s: State, c: nat, e: Ev)
    requires Closed(R)
    requires c in s.cl && s.cl[c] == CIdle && ME(e) !in s.owner
    requires At(s.(owner := s.owner[ME(e) := Client(c)]), c, WtUnlock(e)) in R
    ensures s in R
  {
    hide Closed, WInstr, WNext, WorkerData;
    Drop(R, At(s.(owner := s.owner[ME(e) := Client(c)]), c, WtUnlock(e)), Client(c), ME(e));
    AddRemove(s.owner, ME(e), Client(c));
    SetTwice(s.cl, c, WtUnlock(e), WtDone(e));
    Take(R, At(s, c, WtDone(e)), Return(c));
    SetBack(s.cl, c, WtDone(e));
  }

  /** The queue is drained: one blocked finisher is signalled and the worker falls asleep. */
  lemma {:induction false} SleepRun(R: iset<State>, s: State, d: nat)
    requires Closed(R)
    requires s in R && s.wpc == WHead && s.owner == WorkerQ && s.q.queued == []
    requires d in s.cl && s.cl[d].FnSleep?
    ensures (s.(wpc := WSleep, owner := map[], cl := s.cl[d := FnWake(s.cl[d].k)])) in R
  {
    Work(R, s);
    SignalOne(R, s.(wpc := WSigQ), Worker, MQ, Client(d));
    Drop(R, s.(wpc := WWait, cl := s.cl[d := FnWake(s.cl[d].k)]), Worker, MQ);
    AddRemove(map[], MQ, Worker);
  }

  // ---- the run

  const Three: set<nat> := {0, 1, 2}

  /** No thread can take a step; in particular none has a signal to give. */
  ghost predicate Stuck(s: State) { forall t, wakes :: !CanDo(s, t, wakes) }

  /** Client 0 has created the queue and enqueued event 7, and the worker has unlinked it. */
  lemma {:induction false} UnlinkedOne(R: iset<State>) returns (s: State)
    requires Closed(R) && Init(Three) in R
    ensures s in R && s.wpc == WSubmit && s.ev1 == 7 && s.owner == Both(7) && s.h.created
    ensures s.cl == map[0 := CIdle, 1 := CIdle, 2 := CIdle]
    ensures s.q == Empty.(qstat := 1, stat := map[7 := QUEUED])
    ensures s.h == History([7], [], [], [], {7}, true)
  {
    s := Init(Three);
    CreateRun(R, s, 0);
    s := s.(q := s.q.(qstat := 1), h := s.h.(created := true));
    NobodyAsleep(s, MQ);
    EnqueueRun(R, s, 0, 7, None);
    s := s.(q := Enqueue(s.q, 7), h := s.h.(reserved := s.h.reserved + {7}, enq := s.h.enq + [7]));
    StartRun(R, s);
    s := s.(wpc := WHead, owner := WorkerQ);
    HeadRun(R, s, 7);
    s := s.(wpc := WSubmit, ev1 := 7, q := s.q.(queued := []), owner := Both(7));
    assert s.cl == map[0 := CIdle, 1 := CIdle, 2 := CIdle];
  }

  lemma {:induction false} SubmittedOne(R: iset<State>) returns (s: State)
    requires Closed(R) && Init(Three) in R
    ensures s in R && s.wpc == WCall && s.ev1 == 7 && s.owner == EvOnly(7) && s.h.created
    ensures s.cl == map[0 := CIdle, 1 := CIdle, 2 := CIdle]
    ensures s.q.queued == [] && s.q.submitted == Some(7) && s.q.qstat == 1
    ensures s.h.enq == [7] && s.h.reserved == {7}
  {
    s := UnlinkedOne(R);
    SubmitRun(R, s);
    s := s.(wpc := WCall, q := Submit(s.q, 7), owner := EvOnly(7));
  }

  /** What serving an event leaves alone. */
  predicate SameQueueing(s: State, t: State) {
    && t.q.queued == s.q.queued && t.h.enq == s.h.enq && t.h.reserved == s.h.reserved
    && t.h.created == s.h.created && t.q.qstat == s.q.qstat
  }

  /** From the command call to the completion phase. */
  lemma {:induction false} RanFromCall(R: iset<State>, s0: State) returns (s: State)
    requires Closed(R)
    requires s0 in R && s0.wpc == WCall && s0.owner == EvOnly(s0.ev1)
    requires s0.q.submitted == Some(s0.ev1) && NobodyWaits(s0.cl, s0.ev1)
    ensures s in R && SameQueueing(s0, s)
    ensures s == s0.(wpc := WLockEv3, owner := WorkerQ, q := s.q, h := s.h)
    ensures s.q.running == Some(s.ev1) && s.q.stat == s0.q.stat[s.ev1 := RUNNING]
  {
    CallRun(R, s0);
    s := s0.(wpc := WLockQ1,
             h := s0.h.(began := s0.h.began + [s0.ev1], called := s0.h.called + [s0.ev1]));
    SubmittedRun(R, s);
    s := s.(wpc := WLockEv2, owner := WorkerQ);
    RunningRun(R, s);
    s := s.(wpc := WUnlockQ2, owner := Both(s.ev1), q := Run(ClearSubmitted(s.q), s.ev1));
    RanRun(R, s);
    s := s.(wpc := WLockEv3, owner := WorkerQ);
  }

  lemma {:induction false} ServedRest(R: iset<State>, s0: State) returns (s: State)
    requires Closed(R)
    requires s0 in R && s0.wpc == WCall && s0.owner == EvOnly(s0.ev1)
    requires s0.q.submitted == Some(s0.ev1) && NobodyWaits(s0.cl, s0.ev1)
    ensures s in R && SameQueueing(s0, s)
    ensures s == s0.(wpc := WHead, owner := WorkerQ, q := s.q, h := s.h)
  {
    s := RanFromCall(R, s0);
    CompleteRun(R, s);
    s := s.(wpc := WHead, q := Complete(ClearRunning(s.q), s.ev1),
            h := s.h.(finished := s.h.finished + [s.ev1]));
  }

  lemma {:induction false} ServedWithTwoBlocked(R: iset<State>) returns (s: State)
    requires Closed(R) && Init(Three) in R
    ensures s in R && s.wpc == WSleep && s.owner == map[] && s.h.created
    ensures s.cl == map[0 := CIdle, 1 := FnWake(1), 2 := FnSleep(1)]
    ensures s.q.queued == [] && s.h.reserved == {7}
  {
    s := SubmittedOne(R);
    FinishRun(R, s, 1);
    s := At(s, 1, FnSleep(1));
    FinishRun(R, s, 2);
    s := At(s, 2, FnSleep(1));
    s := ServedRest(R, s);
    SleepRun(R, s, 1);
    s := s.(wpc := WSleep, owner := map[], cl := s.cl[1 := FnWake(1)]);
  }

  lemma {:induction false} LostCommand(R: iset<State>) returns (s: State)
    requires Closed(R) && Init(Three) in R
    ensures s in R && Stuck(s) && s.wpc == WSleep && s.q.queued == [8]
  {
    s := ServedWithTwoBlocked(R);
    EnqueueRun(R, s, 0, 8, Some(2));
    s := s.(q := Enqueue(s.q, 8), h := s.h.(reserved := s.h.reserved + {8}, enq := s.h.enq + [8]),
            cl := s.cl[2 := FnWake(1)]);
    var cl := s.cl;
    SetBack(cl, 2, FnSleep(1));
    assert s == At(s, 2, FnWake(1));
    FinishSleeps(R, s, 2, 1, FnWake(1));
    s := At(s, 2, FnSleep(1));
    assert s == At(s, 1, FnWake(1));
    FinishSleeps(R, s, 1, 1, FnWake(1));
    s := At(s, 1, FnSleep(1));
    assert s.cl == map[0 := CIdle, 1 := FnSleep(1), 2 := FnSleep(1)];
  }

  /** Clients 1 and 2 wait for event 7 while it is running. */
  lemma {:induction false} TwoWaiters(R: iset<State>) returns (s: State)
    requires Closed(R) && Init(Three) in R
    ensures s in R && s.wpc == WLockEv3 && s.ev1 == 7 && s.owner == WorkerQ
    ensures s.cl == map[0 := CIdle, 1 := WtSleep(7), 2 := WtSleep(7)]
    ensures s.q.queued == [] && s.q.running == Some(7)
  {
    s := SubmittedOne(R);
    s := RanFromCall(R, s);
    WaitRun(R, s, 1, 7);
    s := At(s, 1, WtSleep(7));
    WaitRun(R, s, 2, 7);
    s := At(s, 2, WtSleep(7));
    assert s.cl == map[0 := CIdle, 1 := WtSleep(7), 2 := WtSleep(7)];
  }

  /** Its completion wakes client 1, and the worker goes to sleep. */
  lemma {:induction false} OneWaiterWoken(R: iset<State>) returns (s: State)
    requires Closed(R) && Init(Three) in R
    ensures s in R && s.wpc == WSleep && s.owner == map[]
    ensures s.cl == map[0 := CIdle, 1 := WtWake(7), 2 := WtSleep(7)]
    ensures s.q.queued == [] && 7 in s.q.stat && s.q.stat[7] == COMPLETE
  {
    s := TwoWaiters(R);
    InsertRun(R, s);
    s := s.(wpc := WSig3, owner := Both(7), q := Complete(ClearRunning(s.q), 7),
            h := s.h.(finished := s.h.finished + [7]));
    SignalOne(R, s, Worker, ME(7), Client(1));
    s := s.(wpc := WUnlockEv3, cl := s.cl[1 := WtWake(7)]);
    DropEv(R, s);
    s := s.(wpc := WHead, owner := WorkerQ);
    assert s.cl == map[0 := CIdle, 1 := WtWake(7), 2 := WtSleep(7)];
    s := SleepUnheard(R, s);
  }

  /** The queue is drained with no finisher asleep, and the worker falls asleep. */
  lemma {:induction false} SleepUnheard(R: iset<State>, s: State) returns (s': State)
    requires Closed(R)
    requires s in R && s.wpc == WHead && s.owner == WorkerQ && s.q.queued == []
    requires forall c :: c in s.cl ==> CInstr(s.cl[c]) != Sleep(MQ)
    ensures s' == s.(wpc := WSleep, owner := map[]) && s' in R
  {
    Work(R, s);
    SignalNobody(R, s.(wpc := WSigQ), Worker, MQ);
    Drop(R, s.(wpc := WWait), Worker, MQ);
    AddRemove(map[], MQ, Worker);
    s' := s.(wpc := WSleep, owner := map[]);
  }

  /** Client 1 returns from its wait; client 2 is left asleep, and nobody else is about. */
  lemma {:induction false} WaiterLeft(R: iset<State>) returns (s: State)
    requires Closed(R) && Init(Three) in R
    ensures s in R && Stuck(s) && 2 in s.cl && s.cl[2] == WtSleep(7)
    ensures 7 in s.q.stat && s.q.stat[7] == COMPLETE
  {
    var s1 := OneWaiterWoken(R);
    s := At(s1, 1, CIdle);
    assert At(s, 1, WtWake(7)) == s1;
    WokenRun(R, s, 1, 7);
    assert s.cl == map[0 := CIdle, 1 := CIdle, 2 := WtSleep(7)];
    SleepersStuck(s);
  }

  lemma {:induction false} SleepersStuck(s: State)
    requires s.wpc == WSleep && s.cl == map[0 := CIdle, 1 := CIdle, 2 := WtSleep(7)]
    ensures Stuck(s)
  {
  }

  /** Client 1 polls while the event is in nobody's hands. */
  lemma {:induction false} OverlookedEvent(R: iset<State>) returns (s: State)
    requires Closed(R) && Init(Three) in R
    ensures s in R && 1 in s.cl && s.cl[1] == PlDone(1, true)
    ensures s.h.enq == [7] && s.h.began == []
  {
    s := UnlinkedOne(R);
    Take(R, s, Begin(1, OpPoll));
    s := At(s, 1, PlHead);
    Access(R, s, 1);
    s := At(s, 1, PlSub(1));
    Access(R, s, 1);
    s := At(s, 1, PlRun(1, true));
    Access(R, s, 1);
    s := At(s, 1, PlDone(1, true));
  }

  /** Client 1 releases the queue during the command call. */
  lemma {:induction false} ReleaseDuringCall(R: iset<State>) returns (s: State)
    requires Closed(R) && Init(Three) in R
    ensures s in R && s.wpc == WCall && s.ev1 == 7 && s.owner == EvOnly(7)
    ensures s.cl == map[0 := CIdle, 1 := RqJoin, 2 := CIdle]
    ensures s.q.queued == [] && s.q.submitted == Some(7) && s.q.qstat == 2
  {
    s := SubmittedOne(R);
    var o := EvOnly(7)[MQ := Client(1)];
    Take(R, s, Begin(1, OpReleaseQueue));
    Acquire(R, At(s, 1, RqLock), Client(1), MQ);
    SetTwice(s.cl, 1, RqLock, RqSet);
    Access(R, At(s.(owner := o), 1, RqSet), 1);
    ReleaseSignals(R, s);
    s := At(s.(q := s.q.(qstat := 2)), 1, RqJoin);
  }

  lemma {:induction false} ReleaseSignals(R: iset<State>, s: State)
    requires Closed(R)
    requires s.cl == map[0 := CIdle, 1 := CIdle, 2 := CIdle] && s.wpc == WCall && s.owner == EvOnly(7)
    requires ClientData(At(s.(owner := EvOnly(7)[MQ := Client(1)]), 1, RqSet), 1) in R
    ensures At(s.(q := s.q.(qstat := 2)), 1, RqJoin) in R
  {
    hide Closed, WNext, WorkerData;
    var o := EvOnly(7)[MQ := Client(1)];
    SetTwice(s.cl, 1, RqSet, RqSig);
    var s3 := At(s.(owner := o, q := s.q.(qstat := 2)), 1, RqSig);
    NobodyAsleep(s3, MQ);
    SignalNobody(R, s3, Client(1), MQ);
    SetTwice(s.cl, 1, RqSig, RqUnlock);
    ReleaseJoins(R, s);
  }

  lemma {:induction false} ReleaseJoins(R: iset<State>, s: State)
    requires Closed(R)
    requires s.cl == map[0 := CIdle, 1 := CIdle, 2 := CIdle] && s.wpc == WCall && s.owner == EvOnly(7)
    requires At(s.(owner := EvOnly(7)[MQ := Client(1)], q := s.q.(qstat := 2)), 1, RqUnlock) in R
    ensures At(s.(q := s.q.(qstat := 2)), 1, RqJoin) in R
  {
    hide Closed, WInstr, WNext, WorkerData;
    var o := EvOnly(7)[MQ := Client(1)];
    SetTwice(s.cl, 1, RqUnlock, RqJoin);
    Drop(R, At(s.(owner := o, q := s.q.(qstat := 2)), 1, RqUnlock), Client(1), MQ);
    AddRemove(EvOnly(7), MQ, Client(1));
  }

  /** The worker finishes the command, signals nobody, and sleeps; the release waits to join it. */
  lemma {:induction false} HungRelease(R: iset<State>) returns (s: State)
    requires Closed(R) && Init(Three) in R
    ensures s in R && Stuck(s) && s.wpc == WSleep && 1 in s.cl && s.cl[1] == RqJoin
    ensures s.q.queued == [] && s.q.qstat == 2
  {
    s := ReleaseDuringCall(R);
    s := ServedRest(R, s);
    s := SleepUnheard(R, s);
    JoinerStuck(s);
  }

  lemma {:induction false} JoinerStuck(s: State)
    requires s.wpc == WSleep && s.cl == map[0 := CIdle, 1 := RqJoin, 2 := CIdle]
    ensures Stuck(s)
  {
  }

  // ---- the four runs

  lemma {:induction false} ReachableClosed() returns (R: iset<State>)
    ensures R == (iset x | Reachable(Three, x)) && Closed(R) && Init(Three) in R
  {
    R := iset x | Reachable(Three, x);
    forall x, a | x in R && Enabled(x, a) ensures Step(x, a) in R {
      var acts :| Exec(Init(Three), acts) == Some(x);
      ExecAppend(Init(Three), acts, a);
    }
    assert Exec(Init(Three), []) == Some(Init(Three));
  }

  /** Two blocked finishers can cost a command: after the second enqueue only sleepers remain. */
  lemma {:induction false} TwoFinishersLoseCommand() returns (s: State)
    ensures Reachable(Three, s) && Stuck(s) && s.wpc == WSleep && s.q.queued == [8]
  {
    var R := ReachableClosed();
    s := LostCommand(R);
  }

  /** Two waiters for one event can leave one of them asleep for ever beside the complete event. */
  lemma {:induction false} TwoWaitersLeaveOne() returns (s: State)
    ensures Reachable(Three, s) && Stuck(s) && 2 in s.cl && s.cl[2] == WtSleep(7)
    ensures 7 in s.q.stat && s.q.stat[7] == COMPLETE
  {
    var R := ReachableClosed();
    s := WaiterLeft(R);
  }

  /** A poll can answer 0 with an event enqueued whose command call has not even begun. */
  lemma {:induction false} PollOverlooksEvent() returns (s: State)
    ensures Reachable(Three, s) && 1 in s.cl && s.cl[1] == PlDone(1, true)
    ensures s.h.enq == [7] && s.h.began == []
  {
    var R := ReachableClosed();
    s := OverlookedEvent(R);
  }

  /** Releasing a queue during a command can wait for ever. */
  lemma {:induction false} ReleaseOfBusyQueueHangs() returns (s: State)
    ensures Reachable(Three, s) && Stuck(s) && s.wpc == WSleep && 1 in s.cl && s.cl[1] == RqJoin
  {
    var R := ReachableClosed();
    s := HungRelease(R);
  }
}
