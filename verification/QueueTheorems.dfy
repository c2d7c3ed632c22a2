/** What the command queue guarantees on every run, for any number of clients. */
module QueueTheorems {
  import opened Basics
  import opened QueueCore
  import opened QueueMachine
  import opened QueueInvariants

  ghost predicate Reachable(clients: set<nat>, s: State) {
    exists acts :: Exec(Init(clients), acts) == Some(s)
  }

  lemma {:induction false} ReachableInv(clients: set<nat>, s: State)
    requires Reachable(clients, s)
    ensures Inv(s)
  {
    InitInv(clients);
    var acts :| Exec(Init(clients), acts) == Some(s);
    InvExec(Init(clients), acts);
  }

  lemma {:induction false} ExecAppend(s: State, acts: seq<Action>, a: Action)
    requires Exec(s, acts).Some? && Enabled(Exec(s, acts).value, a)
    ensures Exec(s, acts + [a]) == Some(Step(Exec(s, acts).value, a))
    decreases acts
  {
    if acts == [] {
      assert (acts + [a])[1..] == [];
    } else {
      ExecAppend(Step(s, acts[0]), acts[1..], a);
      assert (acts + [a])[1..] == acts[1..] + [a];
    }
  }

  // ---- in-order execution

  function Slots(q: Core): seq<Ev> {
    (if q.submitted.Some? then [q.submitted.value] else [])
    + (if q.running.Some? then [q.running.value] else [])
  }

  /** Whenever the queue mutex is free, all events ever enqueued are, in order, the finished
      ones, the one in a slot if any, and the queued ones; no event is in two places. */
  lemma {:induction false} FifoOrder(clients: set<nat>, s: State)
    requires Reachable(clients, s) && MQ !in s.owner
    ensures s.h.enq == s.h.finished + Slots(s.q) + s.q.queued
    ensures Distinct(s.h.enq) && |Slots(s.q)| <= 1
    ensures forall e :: e in s.q.complete ==> e in s.h.finished
  {
    hide Reachable, Inv;
    ReachableInv(clients, s);
    FifoBetweenSteps(s);
  }

  lemma {:induction false} FifoBetweenSteps(s: State)
    requires Inv(s) && MQ !in s.owner
    ensures !WHoldsQ(s.wpc) && Slots(s.q) == Transit(s)
    ensures s.h.enq == s.h.finished + Slots(s.q) + s.q.queued && Distinct(s.h.enq)
    ensures forall e :: e in s.q.complete ==> e in s.h.finished
  {
    hide StatusInv, ClientsInv, Distinct;
    assert !Holds(s, Worker, MQ);
  }

  /** At every moment: command calls begin, and return, once per event and in enqueue order,
      one at a time. */
  lemma {:induction false} CallsInOrder(clients: set<nat>, s: State)
    requires Reachable(clients, s)
    ensures s.h.finished <= s.h.called <= s.h.began <= s.h.enq && Distinct(s.h.enq)
    ensures |s.h.began| <= |s.h.called| + 1 && |s.h.called| <= |s.h.finished| + 1
    ensures s.wpc != WCrash
  {
    ReachableInv(clients, s);
    assert s.h.finished + Transit(s) <= s.h.enq;
  }

  /** The status of an enqueued event says where it is. */
  lemma {:induction false} StatusIsPlace(clients: set<nat>, s: State, e: Ev)
    requires Reachable(clients, s) && MQ !in s.owner && e in s.h.enq
    ensures e in s.q.stat
    ensures s.q.stat[e] == QUEUED <==> e in s.q.queued
    ensures s.q.stat[e] == SUBMITTED <==> s.q.submitted == Some(e)
    ensures s.q.stat[e] == RUNNING <==> s.q.running == Some(e)
    ensures s.q.stat[e] == COMPLETE <==> e in s.h.finished
  {
    ReachableInv(clients, s);
    FifoOrder(clients, s);
    assert !Holds(s, Worker, MQ);
    ServiceParts(s);
    assert e in s.h.finished || e in Transit(s) || e in s.q.queued;
  }

  // ---- waiting

  /** A wait returns only after the event's command call has returned. */
  lemma {:induction false} WaitMeansExecuted(clients: set<nat>, s: State, c: nat, e: Ev)
    requires Reachable(clients, s) && c in s.cl && (s.cl[c] == WtUnlock(e) || s.cl[c] == WtDone(e))
    ensures e in s.h.called && e in s.q.stat && s.q.stat[e] == COMPLETE
  {
    ReachableInv(clients, s);
    assert ClientInv(s, s.cl[c]);
  }

  /** When finish is about to drop the queue mutex for the last time, every event enqueued up to
      that moment is complete and has been executed. */
  lemma {:induction false} FinishMeansEmpty(clients: set<nat>, s: State, c: nat)
    requires Reachable(clients, s) && c in s.cl && s.cl[c].FnUnlock?
    ensures s.h.finished == s.h.enq && s.h.called == s.h.enq
    ensures forall e :: e in s.h.enq ==> e in s.q.stat && s.q.stat[e] == COMPLETE
  {
    ReachableInv(clients, s);
    assert ClientInv(s, s.cl[c]);
  }

  predicate Finishing(p: CPc, k: nat) {
    p == FnLock(k) || p == FnTest(k) || p == FnWait(k) || p == FnSleep(k) || p == FnWake(k)
    || p == FnUnlock(k) || p == FnDone(k)
  }

  lemma {:induction false} FinishingStep(s: State, a: Action, c: nat, k: nat)
    requires Enabled(s, a) && c in s.cl && Finishing(s.cl[c], k) && a != Return(c)
    ensures c in Step(s, a).cl && Finishing(Step(s, a).cl[c], k)
  {
    if !ActsFor(a, c) { BystanderPc(s, a, c); }
  }

  lemma {:induction false} FinishingRun(s: State, acts: seq<Action>, c: nat, k: nat)
    requires Exec(s, acts).Some? && c in s.cl && Finishing(s.cl[c], k) && Return(c) !in acts
    ensures var s' := Exec(s, acts).value; c in s'.cl && Finishing(s'.cl[c], k)
    decreases acts
  {
    if acts != [] {
      FinishingStep(s, acts[0], c, k);
      FinishingRun(Step(s, acts[0]), acts[1..], c, k);
    }
  }

  lemma {:induction false} FinishRunCovers(s: State, acts: seq<Action>, c: nat, k: nat, s': State)
    requires Inv(s) && c in s.cl && s.cl[c] == FnLock(k)
    requires Exec(s, acts) == Some(s') && Return(c) !in acts && c in s'.cl && s'.cl[c].FnDone?
    ensures k <= |s'.h.finished| && s'.h.finished <= s'.h.called <= s'.h.enq
  {
    hide Exec, LockInv, StatusInv, CompleteInv;
    InvExec(s, acts);
    FinishingRun(s, acts, c, k);
    assert ClientInv(s', s'.cl[c]);
    assert s'.h.finished + Transit(s') <= s'.h.enq;
  }

  /** A finish that has returned covers everything enqueued before it was called. */
  lemma {:induction false} FinishCoversCall(clients: set<nat>, s: State, c: nat, acts: seq<Action>, s': State)
    requires Reachable(clients, s) && Enabled(s, Begin(c, OpFinish)) && Return(c) !in acts
    requires Exec(s, [Begin(c, OpFinish)] + acts) == Some(s') && c in s'.cl && s'.cl[c].FnDone?
    ensures |s.h.enq| <= |s'.h.finished| && s'.h.finished <= s'.h.called <= s'.h.enq
  {
    ReachableInv(clients, s);
    InvStep(s, Begin(c, OpFinish));
    assert ([Begin(c, OpFinish)] + acts)[1..] == acts;
    FinishRunCovers(At(s, c, FnLock(|s.h.enq|)), acts, c, |s.h.enq|, s');
  }

  // ---- the unlocked poll

  /** A poll whose second read did not fall between the unlinking of an event and its entry into
      the submitted slot answers 0 only when every event enqueued before its first read (there
      were k of them) has had its command call return. */
  lemma {:induction false} PollZeroMeansExecuted(clients: set<nat>, s: State, c: nat, k: nat)
    requires Reachable(clients, s) && c in s.cl && s.cl[c] == PlDone(k, false)
    ensures k <= |s.h.called| && s.h.called <= s.h.enq
  {
    ReachableInv(clients, s);
    assert ClientInv(s, s.cl[c]);
    assert s.h.finished + Transit(s) <= s.h.enq;
  }

  /** A poll whose second read does fall there, with the event among the k, answers 0 before the
      call of that event has begun if its last read follows at once. */
  lemma {:induction false} PollInWindowIsWrong(clients: set<nat>, s: State, c: nat, k: nat) returns (s': State)
    requires Reachable(clients, s) && c in s.cl && s.cl[c] == PlSub(k)
    requires s.wpc == WSubmit && k == |s.h.finished| + 1
    ensures Exec(s, [Do(Client(c), None), Do(Client(c), None)]) == Some(s')
    ensures c in s'.cl && s'.cl[c] == PlDone(k, true)
    ensures k == |s'.h.began| + 1 && s'.h.began < s'.h.enq
  {
    WindowFacts(clients, s);
    hide Reachable, Enabled, Step, Exec, ClientData;
    var s1 := At(s, c, PlRun(k, true));
    s' := At(s1, c, PlDone(k, true));
    WindowReads(s, c, k);
    ReadStep(s, c, PlRun(k, true));
    ReadStep(s1, c, PlDone(k, true));
    ExecTwo(s, Do(Client(c), None), s1, Do(Client(c), None), s');
  }

  lemma {:induction false} WindowReads(s: State, c: nat, k: nat)
    requires c in s.cl && s.cl[c] == PlSub(k) && s.wpc == WSubmit
    requires s.q.submitted == None && s.q.running == None
    ensures ClientData(s, c) == At(s, c, PlRun(k, true))
    ensures ClientData(At(s, c, PlRun(k, true)), c) == At(At(s, c, PlRun(k, true)), c, PlDone(k, true))
  {
  }

  lemma {:induction false} WindowFacts(clients: set<nat>, s: State)
    requires Reachable(clients, s) && s.wpc == WSubmit
    ensures s.q.submitted == None && s.q.running == None
    ensures s.h.began == s.h.finished && s.h.began < s.h.enq
  {
    ReachableInv(clients, s);
    assert s.h.enq == s.h.finished + [s.ev1] + s.q.queued;
  }

  lemma {:induction false} ReadStep(s: State, c: nat, p: CPc)
    requires c in s.cl && (s.cl[c].PlSub? || s.cl[c].PlRun?) && ClientData(s, c) == At(s, c, p)
    ensures Enabled(s, Do(Client(c), None)) && Step(s, Do(Client(c), None)) == At(s, c, p)
  {
  }

  lemma {:induction false} ExecTwo(s: State, a: Action, s1: State, b: Action, s2: State)
    requires Enabled(s, a) && Step(s, a) == s1 && Enabled(s1, b) && Step(s1, b) == s2
    ensures Exec(s, [a, b]) == Some(s2)
  {
    assert [a, b][1..] == [b];
    assert Exec(s1, [b]) == Some(s2) by { assert [b][1..] == []; }
  }

  predicate Polling(p: CPc) { p.PlHead? || p.PlSub? || p.PlRun? }

  /** The run ends with the poll of c answering 0. */
  ghost predicate AnswersZero(s: State, c: nat, acts: seq<Action>) {
    var t := Exec(s, acts);
    t.Some? && c in t.value.cl && t.value.cl[c].PlDone?
  }

  /** A read of the poll moves nobody else and changes nothing else. */
  lemma {:induction false} PollRead(s: State, c: nat)
    requires c in s.cl && Polling(s.cl[c])
    ensures Enabled(s, Do(Client(c), None))
    ensures var s' := ClientData(s, c);
      && Step(s, Do(Client(c), None)) == s' && c in s'.cl && s' == At(s, c, s'.cl[c])
      && (Polling(s'.cl[c]) || s'.cl[c].PlDone?)
  {
    hide WorkerData;
    if s.cl[c].PlHead? && s.q.queued != [] { assert s == At(s, c, s.cl[c]); }
  }

  lemma {:induction false} PollReadOnce(s: State, c: nat)
    requires c in s.cl && Polling(s.cl[c])
    ensures Exec(s, [Do(Client(c), None)]) == Some(ClientData(s, c))
  {
    hide Enabled, Step, ClientData;
    PollRead(s, c);
    assert [Do(Client(c), None)][1..] == [];
  }

  /** So a poll can go wrong exactly from that window: otherwise its remaining two reads, taken now, either loop
      back or answer 0 rightly. */
  lemma {:induction false} PollWrongIffWindow(clients: set<nat>, s: State, c: nat, k: nat)
    requires Reachable(clients, s) && c in s.cl && s.cl[c] == PlSub(k)
    ensures AnswersZero(s, c, [Do(Client(c), None), Do(Client(c), None)]) && k > |s.h.called|
            <==> s.wpc == WSubmit && k == |s.h.finished| + 1
  {
    SubmittedReadEnds(s, c, k);
    hide AnswersZero, LockInv, StatusInv, CompleteInv, Distinct;
    ReachableInv(clients, s);
    assert ClientInv(s, s.cl[c]);
  }

  /** What the last two reads find. */
  lemma {:induction false} SubmittedReadEnds(s: State, c: nat, k: nat)
    requires c in s.cl && s.cl[c] == PlSub(k)
    ensures AnswersZero(s, c, [Do(Client(c), None), Do(Client(c), None)])
            <==> s.q.submitted == None && s.q.running == None
  {
    hide Enabled, Step, Exec;
    var s1 := ClientData(s, c);
    PollRead(s, c);
    PollRead(s1, c);
    ExecTwo(s, Do(Client(c), None), s1, Do(Client(c), None), ClientData(s1, c));
  }

  /** The same for its last read alone: a poll that has found the submitted slot empty answers 0 wrongly, if it
      reads now, exactly when the worker is still in front of, or inside, the call of the last of its k events
      and has not yet returned from it. */
  lemma {:induction false} LastReadWrongIff(clients: set<nat>, s: State, c: nat, k: nat, w: bool)
    requires Reachable(clients, s) && c in s.cl && s.cl[c] == PlRun(k, w)
    ensures AnswersZero(s, c, [Do(Client(c), None)]) && k > |s.h.called|
            <==> k == |s.h.finished| + 1
                 && (s.wpc == WSubmit || s.wpc == WUnlockQ1 || s.wpc == WCall || s.wpc == WRet)
  {
    LastReadEnds(s, c, k, w);
    hide AnswersZero, LockInv, StatusInv, CompleteInv, Distinct;
    ReachableInv(clients, s);
    assert ClientInv(s, s.cl[c]);
  }

  /** The last read answers 0 only with nothing in the running slot. */
  lemma {:induction false} LastReadEnds(s: State, c: nat, k: nat, w: bool)
    requires c in s.cl && s.cl[c] == PlRun(k, w)
    ensures AnswersZero(s, c, [Do(Client(c), None)]) <==> s.q.running == None
  {
    hide Enabled, Step, Exec;
    PollReadOnce(s, c);
  }

  /** A whole poll with nobody in between, called when the queue mutex is free, answers 0 exactly when every event
      ever enqueued is finished. */
  lemma {:induction false} PollAloneIff(clients: set<nat>, s: State, c: nat)
    requires Reachable(clients, s) && MQ !in s.owner && Enabled(s, Begin(c, OpPoll))
    ensures AnswersZero(s, c, [Begin(c, OpPoll), Do(Client(c), None), Do(Client(c), None), Do(Client(c), None)])
            <==> s.h.enq == s.h.finished
  {
    hide AnswersZero, Reachable, Distinct;
    FifoOrder(clients, s);
    PollAloneEnds(s, c);
    EmptyIffFinished(s.h.finished, Slots(s.q), s.q.queued);
  }

  lemma {:induction false} EmptyIffFinished(f: seq<Ev>, a: seq<Ev>, b: seq<Ev>)
    ensures f + a + b == f <==> a == [] && b == []
  {
    assert |f + a + b| == |f| + |a| + |b|;
    if a == [] && b == [] { assert f + a + b == f; }
  }

  lemma {:induction false} PollAloneEnds(s: State, c: nat)
    requires Enabled(s, Begin(c, OpPoll))
    ensures AnswersZero(s, c, [Begin(c, OpPoll), Do(Client(c), None), Do(Client(c), None), Do(Client(c), None)])
            <==> Slots(s.q) == [] && s.q.queued == []
  {
    var s0, d := Step(s, Begin(c, OpPoll)), Do(Client(c), None);
    assert [Begin(c, OpPoll), d, d, d][1..] == [d, d, d];
    PollHeadEnds(s0, c);
  }

  lemma {:induction false} PollHeadEnds(s: State, c: nat)
    requires c in s.cl && s.cl[c] == PlHead
    ensures AnswersZero(s, c, [Do(Client(c), None), Do(Client(c), None), Do(Client(c), None)])
            <==> Slots(s.q) == [] && s.q.queued == []
  {
    var d, s1 := Do(Client(c), None), ClientData(s, c);
    PollRead(s, c);
    assert [d, d, d][1..] == [d, d];
    assert AnswersZero(s, c, [d, d, d]) <==> AnswersZero(s1, c, [d, d]);
    if s.q.queued == [] {
      SubmittedReadEnds(s1, c, |s.h.enq|);
    } else {
      HeadReadTwice(s1, c);
    }
  }

  /** With something queued two reads stay at the first. */
  lemma {:induction false} HeadReadTwice(s: State, c: nat)
    requires c in s.cl && s.cl[c] == PlHead && s.q.queued != []
    ensures !AnswersZero(s, c, [Do(Client(c), None), Do(Client(c), None)])
  {
    hide Enabled, Step, Exec;
    PollRead(s, c);
    ExecTwo(s, Do(Client(c), None), s, Do(Client(c), None), s);
  }

  /** Nothing comes between the unlinking of an event and its entry into the submitted slot. */
  ghost predicate WritesTogether(s: State, acts: seq<Action>)
    requires Exec(s, acts).Some?
    decreases acts
  {
    acts != [] ==>
      (s.wpc == WSubmit ==> acts[0].Do? && acts[0].t == Worker) && WritesTogether(Step(s, acts[0]), acts[1..])
  }

  predicate InWindow(p: CPc) { (p.PlRun? || p.PlDone?) && p.window }

  ghost predicate NobodyInWindow(s: State) { forall c :: c in s.cl ==> !InWindow(s.cl[c]) }

  lemma {:induction false} WindowStep(s: State, a: Action)
    requires NobodyInWindow(s) && Enabled(s, a) && (s.wpc == WSubmit ==> a.Do? && a.t == Worker)
    ensures NobodyInWindow(Step(s, a))
  {
    hide Enabled, Step;
    StepKeepsClients(s, a);
    forall c | c in Step(s, a).cl ensures !InWindow(Step(s, a).cl[c]) {
      if ActsFor(a, c) { WindowActor(s, a, c); } else { WindowBystander(s, a, c); }
    }
  }

  lemma {:induction false} WindowBystander(s: State, a: Action, c: nat)
    requires Enabled(s, a) && c in s.cl && !ActsFor(a, c) && !InWindow(s.cl[c])
    ensures c in Step(s, a).cl && !InWindow(Step(s, a).cl[c])
  {
    hide Enabled, Step;
    BystanderPc(s, a, c);
  }

  lemma {:induction false} WindowActor(s: State, a: Action, c: nat)
    requires Enabled(s, a) && c in s.cl && ActsFor(a, c) && !InWindow(s.cl[c]) && s.wpc != WSubmit
    ensures c in Step(s, a).cl && !InWindow(Step(s, a).cl[c])
  {
    hide WInstr, WNext, WorkerData;
    if a.Do? && CInstr(s.cl[c]) != Data { assert Step(s, a).cl[c] == CNext(s.cl[c]); }
  }

  lemma {:induction false} WindowRun(s: State, acts: seq<Action>)
    requires NobodyInWindow(s) && Exec(s, acts).Some? && WritesTogether(s, acts)
    ensures NobodyInWindow(Exec(s, acts).value)
    decreases acts
  {
    hide NobodyInWindow, Enabled, Step;
    if acts != [] {
      WindowStep(s, acts[0]);
      WindowRun(Step(s, acts[0]), acts[1..]);
    }
  }

  /** With those two writes as one step every poll is right. */
  lemma {:induction false} PollRightWithoutWindow(clients: set<nat>, acts: seq<Action>, s: State, c: nat, k: nat,
            w: bool)
    requires Exec(Init(clients), acts) == Some(s) && WritesTogether(Init(clients), acts)
    requires c in s.cl && s.cl[c] == PlDone(k, w)
    ensures k <= |s.h.called| && s.h.called <= s.h.enq
  {
    hide Exec, WritesTogether;
    WindowRun(Init(clients), acts);
    assert !InWindow(s.cl[c]);
    PollZeroMeansExecuted(clients, s, c, k);
  }

  // ---- status as a termination measure

  function StatusOf(s: State, e: Ev): int { if e in s.q.stat then s.q.stat[e] else 0 }

  function StatusSum(es: seq<Ev>, stat: map<Ev, int>): int {
    if es == [] then 0
    else (if es[0] in stat then stat[es[0]] else 0) + StatusSum(es[1..], stat)
  }

  lemma {:induction false} StatusSumConst(es: seq<Ev>, stat: map<Ev, int>, v: int)
    requires forall e :: e in es ==> e in stat && stat[e] == v
    ensures StatusSum(es, stat) == v * |es|
  {
    if es != [] {
      StatusSumConst(es[1..], stat, v);
    }
  }

  lemma {:induction false} StatusSumConcat(a: seq<Ev>, b: seq<Ev>, stat: map<Ev, int>)
    ensures StatusSum(a + b, stat) == StatusSum(a, stat) + StatusSum(b, stat)
  {
    if a == [] {
      assert a + b == b;
    } else {
      assert (a + b)[1..] == a[1..] + b;
      StatusSumConcat(a[1..], b, stat);
    }
  }

  /** The sum of the statuses of all events ever enqueued. */
  function Remaining(s: State): int { StatusSum(s.h.enq, s.q.stat) }

  lemma {:induction false} RemainingByPlace(s: State)
    requires ServiceInv(s)
    ensures Remaining(s) == Load(s)
  {
    var stat := s.q.stat;
    StatusSumConcat(s.h.finished + Transit(s), s.q.queued, stat);
    StatusSumConcat(s.h.finished, Transit(s), stat);
    StatusSumConst(s.h.finished, stat, COMPLETE);
    StatusSumConst(s.q.queued, stat, QUEUED);
    if InTransit(s.wpc) { StatusSumConst(Transit(s), stat, TransitStatus(s.wpc)); }
  }

  predicate IsPhase(s: State, a: Action) {
    a.Do? && a.t.Worker? && (s.wpc == WSubmit || s.wpc == WSetRun || s.wpc == WInsert)
  }

  predicate IsEnqueue(s: State, a: Action) {
    a.Do? && a.t.Client? && a.t.id in s.cl && s.cl[a.t.id].EnqInsert?
  }

  /** A worker phase lowers the status of exactly one event, by one; no other step changes the
      status of an enqueued event. */
  lemma {:induction false} StatusStep(s: State, a: Action, e: Ev)
    requires Inv(s) && Enabled(s, a) && e in s.h.enq
    ensures StatusOf(Step(s, a), e) == StatusOf(s, e) - if IsPhase(s, a) && e == s.ev1 then 1 else 0
  {
    hide Inv, CInstr, WorkerData, ClientData;
    if a.Do? {
      if InstrOf(s, a.t) != Data { DoQuiet(s, a.t, a.wakes); } else { StatusData(s, a.t, e); }
    }
  }

  lemma {:induction false} StatusData(s: State, t: Thread, e: Ev)
    requires Inv(s) && IsThread(s, t) && InstrOf(s, t) == Data && e in s.h.enq
    ensures StatusOf(DoStep(s, t, None), e)
         == StatusOf(s, e) - if IsPhase(s, Do(t, None)) && e == s.ev1 then 1 else 0
  {
    if t.Client? {
      StatusClientData(s, t.id, e);
    } else {
      StatusWorkerData(s, e);
    }
  }

  lemma {:induction false} StatusClientData(s: State, c: nat, e: Ev)
    requires ClientsInv(s) && c in s.cl && CInstr(s.cl[c]) == Data && e in s.h.enq
    ensures StatusOf(ClientData(s, c), e) == StatusOf(s, e)
  {
    assert ClientInv(s, s.cl[c]);
  }

  lemma {:induction false} StatusWorkerData(s: State, e: Ev)
    requires ServiceInv(s) && WInstr(s.wpc, s.ev1) == Data && e in s.h.enq
    ensures StatusOf(WorkerData(s), e)
         == StatusOf(s, e) - if IsPhase(s, Do(Worker, None)) && e == s.ev1 then 1 else 0
  {
  }

  lemma {:induction false} RemainingStep(s: State, a: Action)
    requires Inv(s) && Enabled(s, a)
    ensures Remaining(Step(s, a))
         == Remaining(s) + (if IsEnqueue(s, a) then 3 else 0) - (if IsPhase(s, a) then 1 else 0)
  {
    InvStep(s, a);
    RemainingByPlace(s);
    RemainingByPlace(Step(s, a));
    LoadStep(s, a);
  }

  function Load(s: State): int {
    3 * |s.q.queued| + if InTransit(s.wpc) then TransitStatus(s.wpc) else 0
  }

  lemma {:induction false} LoadData(s: State, t: Thread)
    requires SlotInv(s) && IsThread(s, t) && InstrOf(s, t) == Data
    ensures var a := Do(t, None);
      Load(DoStep(s, t, None))
      == Load(s) + (if IsEnqueue(s, a) then 3 else 0) - (if IsPhase(s, a) then 1 else 0)
  {
    hide WorkerData, ClientData, InTransit, TransitStatus, SlotInv;
    if t.Worker? { LoadWorkerData(s); } else { LoadClientData(s, t.id); }
  }

  lemma {:induction false} LoadWorkerData(s: State)
    requires SlotInv(s) && WInstr(s.wpc, s.ev1) == Data
    ensures Load(WorkerData(s)) == Load(s) - if IsPhase(s, Do(Worker, None)) then 1 else 0
  {
  }

  lemma {:induction false} LoadClientData(s: State, c: nat)
    requires c in s.cl && CInstr(s.cl[c]) == Data
    ensures Load(ClientData(s, c)) == Load(s) + if s.cl[c].EnqInsert? then 3 else 0
  {
    hide InTransit, TransitStatus;
  }

  lemma {:induction false} LoadStep(s: State, a: Action)
    requires SlotInv(s) && Enabled(s, a)
    ensures Load(Step(s, a))
         == Load(s) + (if IsEnqueue(s, a) then 3 else 0) - (if IsPhase(s, a) then 1 else 0)
  {
    var s' := Step(s, a);
    if a.Do? && InstrOf(s, a.t) == Data {
      LoadData(s, a.t);
    } else {
      if a.Do? { DoQuiet(s, a.t, a.wakes); }
      assert SameService(s, s');
      if s'.wpc != s.wpc { QuietAdvance(s.wpc, s.ev1); }
    }
  }

  ghost function Phases(s: State, acts: seq<Action>): nat
    requires Exec(s, acts).Some?
    decreases acts
  {
    if acts == [] then 0
    else (if IsPhase(s, acts[0]) then 1 else 0) + Phases(Step(s, acts[0]), acts[1..])
  }

  ghost function EnqueueCount(s: State, acts: seq<Action>): nat
    requires Exec(s, acts).Some?
    decreases acts
  {
    if acts == [] then 0
    else (if IsEnqueue(s, acts[0]) then 1 else 0) + EnqueueCount(Step(s, acts[0]), acts[1..])
  }

  /** Conservation over a whole run: three per enqueue, minus one per worker phase. */
  lemma {:induction false} RemainingRun(s: State, acts: seq<Action>)
    requires Inv(s) && Exec(s, acts).Some?
    ensures Remaining(Exec(s, acts).value) == Remaining(s) + 3 * EnqueueCount(s, acts) - Phases(s, acts)
    decreases acts
  {
    if acts != [] {
      RemainingStep(s, acts[0]);
      InvStep(s, acts[0]);
      RemainingRun(Step(s, acts[0]), acts[1..]);
    }
  }

  /** n queued events drain in exactly 3n phases. */
  lemma {:induction false} DrainPhases(clients: set<nat>, s: State, acts: seq<Action>)
    requires Reachable(clients, s) && MQ !in s.owner && Slots(s.q) == []
    requires Exec(s, acts).Some? && EnqueueCount(s, acts) == 0
    requires var s' := Exec(s, acts).value;
      MQ !in s'.owner && Slots(s'.q) == [] && s'.q.queued == []
    ensures Phases(s, acts) == 3 * |s.q.queued|
  {
    var s' := Exec(s, acts).value;
    ReachableInv(clients, s);
    InvExec(s, acts);
    assert !Holds(s, Worker, MQ) && !Holds(s', Worker, MQ);
    RemainingRun(s, acts);
    RemainingByPlace(s);
    RemainingByPlace(s');
  }

  // ---- deadlock

  /** t is blocked on a mutex that u owns. */
  ghost predicate BlockedBy(s: State, t: Thread, u: Thread) {
    && IsThread(s, t) && InstrOf(s, t).Lock?
    && InstrOf(s, t).m in s.owner && s.owner[InstrOf(s, t).m] == u
  }

  /** A client about to lock a mutex holds none. */
  lemma {:induction false} ClientsLockEmptyHanded(s: State, c: nat, m: Mutex)
    requires c in s.cl && CInstr(s.cl[c]).Lock?
    ensures !Holds(s, Client(c), m)
  {
  }

  /** The worker never locks a mutex it already holds. */
  lemma {:induction false} WorkerNeverRelocks(s: State)
    requires WInstr(s.wpc, s.ev1).Lock?
    ensures !Holds(s, Worker, WInstr(s.wpc, s.ev1).m)
  {
    WorkerHolds(s.wpc, s.ev1, WInstr(s.wpc, s.ev1).m);
  }

  /** Only the worker ever holds two mutexes. */
  lemma {:induction false} OnlyWorkerHoldsTwo(clients: set<nat>, s: State, t: Thread, m: Mutex, n: Mutex)
    requires Reachable(clients, s) && m != n && m in s.owner && n in s.owner
    requires s.owner[m] == t && s.owner[n] == t
    ensures t == Worker
  {
    ReachableInv(clients, s);
    assert Holds(s, t, m) && Holds(s, t, n);
  }

  ghost predicate MutexCycle(s: State, ts: seq<Thread>) {
    && ts != []
    && forall i :: 0 <= i < |ts| ==> BlockedBy(s, ts[i], ts[if i + 1 < |ts| then i + 1 else 0])
  }

  /** No reachable state has a cycle of threads blocked on mutexes. */
  lemma {:induction false} NoMutexCycle(clients: set<nat>, s: State, ts: seq<Thread>)
    requires Reachable(clients, s)
    ensures !MutexCycle(s, ts)
  {
    if MutexCycle(s, ts) {
      ReachableInv(clients, s);
      var n := |ts|;
      var prev := if n > 1 then n - 1 else 0;
      var next := if n > 1 then 1 else 0;
      assert BlockedBy(s, ts[prev], ts[0]) && BlockedBy(s, ts[0], ts[next]);
      assert Holds(s, ts[0], InstrOf(s, ts[prev]).m);
      if ts[0].Client? {
        ClientsLockEmptyHanded(s, ts[0].id, InstrOf(s, ts[prev]).m);
      } else {
        assert Holds(s, ts[next], InstrOf(s, ts[0]).m);
        WorkerNeverRelocks(s);
        assert BlockedBy(s, ts[next], ts[if next + 1 < n then next + 1 else 0]);
        ClientsLockEmptyHanded(s, ts[next].id, InstrOf(s, ts[0]).m);
      }
    }
  }

  /** t has a step it can take now. */
  ghost predicate Runs(s: State, t: Thread) { exists wakes :: CanDo(s, t, wakes) }

  lemma {:induction false} HoldersAreAwake(s: State, t: Thread, m: Mutex)
    requires Holds(s, t, m)
    ensures IsThread(s, t) && !InstrOf(s, t).Sleep? && InstrOf(s, t) != Stop
    ensures t.Client? ==> !InstrOf(s, t).Lock? && s.cl[t.id] != RqJoin
  {
  }

  /** A thread that is awake runs, unless it is in front of a taken mutex or of the join. */
  lemma {:induction false} AwakeRuns(s: State, t: Thread)
    requires IsThread(s, t) && !InstrOf(s, t).Sleep? && InstrOf(s, t) != Stop
    requires InstrOf(s, t).Lock? ==> InstrOf(s, t).m !in s.owner
    requires t.Client? ==> s.cl[t.id] != RqJoin
    ensures Runs(s, t)
  {
    hide WInstr, CInstr;
    if InstrOf(s, t).Signal? && exists u :: Asleep(s, u, InstrOf(s, t).m) {
      var u :| Asleep(s, u, InstrOf(s, t).m);
      assert CanDo(s, t, Some(u));
    } else {
      assert CanDo(s, t, None);
    }
  }

  /** A thread blocked on a mutex always has behind it a thread that can take a step: the owner,
      or the owner of the mutex that the owner waits for. */
  lemma {:induction false} BlockedMeansSomeoneRuns(clients: set<nat>, s: State, t: Thread, u: Thread)
    requires Reachable(clients, s) && BlockedBy(s, t, u)
    ensures Runs(s, u) || exists v :: BlockedBy(s, u, v) && Runs(s, v)
  {
    hide WInstr, CInstr, WHolds, CHolds, CanDo;
    ReachableInv(clients, s);
    assert Holds(s, u, InstrOf(s, t).m);
    HoldersAreAwake(s, u, InstrOf(s, t).m);
    if InstrOf(s, u).Lock? && InstrOf(s, u).m in s.owner {
      var m := InstrOf(s, u).m;
      var v := s.owner[m];
      assert Holds(s, v, m);
      HoldersAreAwake(s, v, m);
      assert v != Worker by { WorkerNeverRelocks(s); }
      AwakeRuns(s, v);
      assert BlockedBy(s, u, v) && Runs(s, v);
    } else {
      AwakeRuns(s, u);
    }
  }
}
