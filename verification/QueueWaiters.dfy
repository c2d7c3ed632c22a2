/** Waiting for an event: the signal of its completion is heard by its only waiter, and exactly
    when it leaves no waiter behind. */
module QueueWaiters {
  import opened Basics
  import opened QueueCore
  import opened QueueMachine
  import opened QueueInvariants

  predicate IsComplete(s: State, e: Ev) { e in s.q.stat && s.q.stat[e] == COMPLETE }

  /** At most one client sleeps in a wait for e. */
  ghost predicate OneWaiter(s: State, e: Ev) {
    forall c, d {:trigger s.cl[c], s.cl[d]} ::
      c in s.cl && d in s.cl && s.cl[c] == WtSleep(e) && s.cl[d] == WtSleep(e) ==> c == d
  }

  ghost predicate NoWaiter(s: State, e: Ev) { forall c :: c in s.cl ==> s.cl[c] != WtSleep(e) }

  /** The worker has marked e complete and is about to signal its waiters. */
  predicate Announces(s: State, e: Ev) { s.wpc == WSig3 && s.ev1 == e }

  predicate WaiterInv(s: State, p: CPc) {
    && (p.WtWait? ==> !IsComplete(s, p.e))
    && (p.WtSleep? && IsComplete(s, p.e) ==> Announces(s, p.e))
  }

  ghost predicate WaitersInv(s: State) { forall c :: c in s.cl ==> WaiterInv(s, s.cl[c]) }

  lemma {:induction false} SignalOn(s: State, wakes: Option<Thread>, c: nat)
    requires s.wpc == WSig3 && CanDo(s, Worker, wakes) && c in s.cl
    ensures var s' := DoStep(s, Worker, wakes);
      c in s'.cl && (s'.cl[c] == WtSleep(s.ev1) <==> s.cl[c] == WtSleep(s.ev1) && wakes != Some(Client(c)))
  {
    hide ClientData, WorkerData;
  }

  /** The signal of a completion leaves no waiter asleep exactly when there was at most one. */
  lemma {:induction false} SignalClearsWaiters(s: State, wakes: Option<Thread>)
    requires s.wpc == WSig3 && CanDo(s, Worker, wakes)
    ensures NoWaiter(DoStep(s, Worker, wakes), s.ev1) <==> OneWaiter(s, s.ev1)
  {
    var s', e := DoStep(s, Worker, wakes), s.ev1;
    WokenOne(s, wakes);
    assert s'.cl.Keys == s.cl.Keys by { StepKeepsClients(s, Do(Worker, wakes)); }
    hide CanDo, DoStep;
    forall c | c in s.cl
      ensures s'.cl[c] == WtSleep(e) <==> s.cl[c] == WtSleep(e) && wakes != Some(Client(c))
    {
      SignalOn(s, wakes, c);
    }
  }

  /** The signal wakes a waiter when there is one. */
  lemma {:induction false} WokenOne(s: State, wakes: Option<Thread>)
    requires s.wpc == WSig3 && CanDo(s, Worker, wakes)
    ensures wakes.None? ==> NoWaiter(s, s.ev1)
    ensures wakes.Some? ==> wakes.value.Client? && wakes.value.id in s.cl && s.cl[wakes.value.id] == WtSleep(s.ev1)
  {
    if wakes.None? {
      forall c | c in s.cl ensures s.cl[c] != WtSleep(s.ev1) {
        assert !Asleep(s, Client(c), ME(s.ev1));
      }
    }
  }

  /** Only the worker's insertion of an event into the complete list marks it complete. */
  lemma {:induction false} CompletedBy(s: State, a: Action, e: Ev)
    requires Enabled(s, a) && IsComplete(Step(s, a), e) && !IsComplete(s, e)
    ensures a.Do? && a.t == Worker && s.wpc == WInsert && s.ev1 == e && Announces(Step(s, a), e)
    ensures Step(s, a).cl == s.cl
  {
    if a.Do? && InstrOf(s, a.t) != Data { DoQuiet(s, a.t, a.wakes); }
  }

  /** The worker stops announcing an event only by the signal. */
  lemma {:induction false} AnnouncedBy(s: State, a: Action, e: Ev)
    requires Enabled(s, a) && Announces(s, e) && !Announces(Step(s, a), e)
    ensures a.Do? && a.t == Worker
  {
  }

  lemma {:induction false} BystanderWaits(s: State, a: Action, c: nat)
    requires LockInv(s) && Enabled(s, a) && c in s.cl && !ActsFor(a, c) && WaiterInv(s, s.cl[c])
    requires s.wpc == WSig3 ==> OneWaiter(s, s.ev1)
    ensures c in Step(s, a).cl && WaiterInv(Step(s, a), Step(s, a).cl[c])
  {
    hide Enabled, Step, DoStep;
    var s', p := Step(s, a), s.cl[c];
    BystanderPc(s, a, c);
    if s'.cl[c] == p && (p.WtWait? || p.WtSleep?) && IsComplete(s', p.e) {
      if !IsComplete(s, p.e) {
        CompletedBy(s, a, p.e);
        assert Holds(s, Worker, ME(p.e));
        assert p.WtWait? ==> Holds(s, Client(c), ME(p.e));
      } else if !Announces(s', p.e) {
        AnnouncedBy(s, a, p.e);
        AnnouncementHeard(s, a, c);
      }
    }
  }

  /** The only waiter hears the announcement. */
  lemma {:induction false} AnnouncementHeard(s: State, a: Action, c: nat)
    requires s.wpc == WSig3 && OneWaiter(s, s.ev1) && Enabled(s, a) && a.Do? && a.t == Worker
    requires c in s.cl
    ensures c in Step(s, a).cl && Step(s, a).cl[c] != WtSleep(s.ev1)
  {
    hide CanDo, DoStep;
    SignalClearsWaiters(s, a.wakes);
    StepKeepsClients(s, a);
  }

  lemma {:induction false} ActorWaits(s: State, a: Action, c: nat)
    requires Enabled(s, a) && c in s.cl && ActsFor(a, c) && WaiterInv(s, s.cl[c])
    ensures c in Step(s, a).cl && WaiterInv(Step(s, a), Step(s, a).cl[c])
  {
    match a
    case Do(t, wakes) =>
      if CInstr(s.cl[c]) == Data {
        ActorWaitsData(s, c);
      } else {
        DoQuiet(s, t, wakes);
        assert Step(s, a).cl[c] == CNext(s.cl[c]);
      }
    case Begin(_, op) =>
    case Return(_) =>
    case Spurious(_) =>
  }

  lemma {:induction false} ActorWaitsData(s: State, c: nat)
    requires c in s.cl && CInstr(s.cl[c]) == Data && WaiterInv(s, s.cl[c])
    ensures c in ClientData(s, c).cl && WaiterInv(ClientData(s, c), ClientData(s, c).cl[c])
  {
  }

  lemma {:induction false} WaitersStep(s: State, a: Action)
    requires LockInv(s) && WaitersInv(s) && Enabled(s, a)
    requires s.wpc == WSig3 ==> OneWaiter(s, s.ev1)
    ensures WaitersInv(Step(s, a))
  {
    hide Step, Enabled, LockInv, OneWaiter, WaiterInv;
    StepKeepsClients(s, a);
    forall c | c in Step(s, a).cl ensures WaiterInv(Step(s, a), Step(s, a).cl[c]) {
      assert WaiterInv(s, s.cl[c]);
      if ActsFor(a, c) { ActorWaits(s, a, c); } else { BystanderWaits(s, a, c); }
    }
  }

  /** Whenever the run signals a completion, at most one client sleeps in a wait for the event. */
  ghost predicate OneWaiterRun(s: State, acts: seq<Action>)
    requires Exec(s, acts).Some?
    decreases acts
  {
    && (s.wpc == WSig3 ==> OneWaiter(s, s.ev1))
    && (acts != [] ==> OneWaiterRun(Step(s, acts[0]), acts[1..]))
  }

  lemma {:induction false} WaitersRun(s: State, acts: seq<Action>)
    requires Inv(s) && WaitersInv(s) && Exec(s, acts).Some? && OneWaiterRun(s, acts)
    ensures WaitersInv(Exec(s, acts).value)
    decreases acts
  {
    hide LockInv, ServiceInv, ClientsInv, WaitersInv, Enabled, Step;
    if acts != [] {
      InvStep(s, acts[0]);
      WaitersStep(s, acts[0]);
      WaitersRun(Step(s, acts[0]), acts[1..]);
    }
  }

  /** No completion is missed: on a run on which every completion is signalled to at most one
      sleeping waiter, a client asleep in a wait for a complete event is about to be signalled. */
  lemma {:induction false} NoLostCompletion(clients: set<nat>, acts: seq<Action>, s: State, c: nat, e: Ev)
    requires Exec(Init(clients), acts) == Some(s) && OneWaiterRun(Init(clients), acts)
    requires c in s.cl && s.cl[c] == WtSleep(e) && IsComplete(s, e)
    ensures s.wpc == WSig3 && s.ev1 == e
  {
    hide Exec, OneWaiterRun;
    InitInv(clients);
    WaitersRun(Init(clients), acts);
    assert WaiterInv(s, s.cl[c]);
  }
}
