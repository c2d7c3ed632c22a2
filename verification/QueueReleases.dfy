/** What the two releases have achieved when they return. */
module QueueReleases {

  import opened Basics
  import opened QueueCore
  import opened QueueMachine
  import opened QueueInvariants
  import opened QueueTheorems

  /** A released event is finished and off the complete list; the release of the queue has joined a worker that
      has exited. */
  predicate ReturnInv(s: State, p: CPc) {
    && (p.RlUnlock? || p.RlDone? ==> p.e in s.h.finished && p.e !in s.q.complete)
    && (p.RqDone? ==> s.wpc == WDone)
  }

  ghost predicate ReturnsInv(s: State) { forall c :: c in s.cl ==> ReturnInv(s, s.cl[c]) }

  /** Only a completion puts an event on the complete list, and only once. */
  lemma {:induction false} CompleteGrows(s: State, a: Action, e: Ev)
    requires Inv(s) && Enabled(s, a) && e !in s.q.complete && e in s.h.finished
    ensures e !in Step(s, a).q.complete
  {
    hide LockInv, ClientsInv, StatusInv;
    if a.Do? {
      if InstrOf(s, a.t) != Data {
        DoQuiet(s, a.t, a.wakes);
      } else if a.t.Worker? {
        ServiceParts(s);
      } else {
        UnlinkAdds(s, a.t.id, e);
      }
    }
  }

  lemma {:induction false} UnlinkAdds(s: State, c: nat, e: Ev)
    requires c in s.cl && CInstr(s.cl[c]) == Data && e !in s.q.complete
    ensures e !in ClientData(s, c).q.complete
  {
  }

  lemma {:induction false} ExitedStays(s: State, a: Action)
    requires Enabled(s, a) && s.wpc == WDone
    ensures Step(s, a).wpc == WDone
  {
    if a.Do? && InstrOf(s, a.t) == Data { ClientDataMoves(s, a.t.id); }
  }

  lemma {:induction false} BystanderReturns(s: State, a: Action, c: nat)
    requires Inv(s) && Enabled(s, a) && c in s.cl && !ActsFor(a, c) && ReturnInv(s, s.cl[c])
    ensures c in Step(s, a).cl && ReturnInv(Step(s, a), Step(s, a).cl[c])
  {
    hide LockInv, FifoInv, StatusInv, CompleteInv, ClientsInv, Enabled, Step;
    var p := s.cl[c];
    BystanderPc(s, a, c);
    ProgressStep(s, a);
    if p.RlUnlock? || p.RlDone? { CompleteGrows(s, a, p.e); }
    if p.RqDone? { ExitedStays(s, a); }
  }

  lemma {:induction false} ActorReturns(s: State, a: Action, c: nat)
    requires Inv(s) && Enabled(s, a) && c in s.cl && ActsFor(a, c) && ReturnInv(s, s.cl[c])
    ensures c in Step(s, a).cl && ReturnInv(Step(s, a), Step(s, a).cl[c])
  {
    hide LockInv, ServiceInv, ClientsInv, ReturnInv, DoStep, BeginStep;
    match a
    case Do(t, wakes) => ActorDoes(s, wakes, c);
    case Begin(_, op) => BeginReturns(s, c, op);
    case Return(_) => BackToIdle(s, c);
    case Spurious(_) => ActorWakes(s, c);
  }

  lemma {:induction false} BeginReturns(s: State, c: nat, op: Op)
    requires c in s.cl
    ensures c in BeginStep(s, c, op).cl && ReturnInv(BeginStep(s, c, op), BeginStep(s, c, op).cl[c])
  {
  }

  lemma {:induction false} BackToIdle(s: State, c: nat)
    requires c in s.cl
    ensures c in ReturnStep(s, c).cl && ReturnInv(ReturnStep(s, c), ReturnStep(s, c).cl[c])
  {
  }

  lemma {:induction false} ActorWakes(s: State, c: nat)
    requires c in s.cl && CInstr(s.cl[c]).Sleep?
    ensures c in Advance(s, Client(c)).cl && ReturnInv(Advance(s, Client(c)), Advance(s, Client(c)).cl[c])
  {
  }

  lemma {:induction false} ActorDoes(s: State, wakes: Option<Thread>, c: nat)
    requires Inv(s) && c in s.cl && CanDo(s, Client(c), wakes) && ReturnInv(s, s.cl[c])
    ensures c in DoStep(s, Client(c), wakes).cl
    ensures ReturnInv(DoStep(s, Client(c), wakes), DoStep(s, Client(c), wakes).cl[c])
  {
    hide LockInv, ServiceInv, ClientsInv, ClientData;
    if CInstr(s.cl[c]) == Data {
      ActorReturnsData(s, c);
    } else {
      DoQuiet(s, Client(c), wakes);
      assert DoStep(s, Client(c), wakes).cl[c] == CNext(s.cl[c]);
    }
  }

  lemma {:induction false} ActorReturnsData(s: State, c: nat)
    requires Inv(s) && c in s.cl && CInstr(s.cl[c]) == Data && DataReady(s, s.cl[c]) && ReturnInv(s, s.cl[c])
    ensures c in ClientData(s, c).cl && ReturnInv(ClientData(s, c), ClientData(s, c).cl[c])
  {
    hide LockInv, FifoInv, SlotInv, StatusInv, CompleteInv, ClientInv;
    if s.cl[c].RlRemove? {
      assert ClientInv(s, s.cl[c]);
      TakenOff(s, c);
    }
  }

  lemma {:induction false} TakenOff(s: State, c: nat)
    requires CompleteInv(s) && c in s.cl && s.cl[c].RlRemove? && ClientInv(s, s.cl[c])
    ensures c in ClientData(s, c).cl && ReturnInv(ClientData(s, c), ClientData(s, c).cl[c])
  {
    UnlinkKeepsDistinct(s.q.complete, s.cl[c].e);
  }

  lemma {:induction false} ReturnsStep(s: State, a: Action)
    requires Inv(s) && ReturnsInv(s) && Enabled(s, a)
    ensures ReturnsInv(Step(s, a))
  {
    hide Step, Enabled, Inv, ReturnInv;
    StepKeepsClients(s, a);
    forall c | c in Step(s, a).cl ensures ReturnInv(Step(s, a), Step(s, a).cl[c]) {
      if ActsFor(a, c) { ActorReturns(s, a, c); } else { BystanderReturns(s, a, c); }
    }
  }

  lemma {:induction false} ReturnsRun(s: State, acts: seq<Action>)
    requires Inv(s) && ReturnsInv(s) && Exec(s, acts).Some?
    ensures ReturnsInv(Exec(s, acts).value)
    decreases acts
  {
    hide Inv, ReturnsInv, Enabled, Step;
    if acts != [] {
      InvStep(s, acts[0]);
      ReturnsStep(s, acts[0]);
      ReturnsRun(Step(s, acts[0]), acts[1..]);
    }
  }

  lemma {:induction false} ReachedReturns(clients: set<nat>, s: State)
    requires Reachable(clients, s)
    ensures ReturnsInv(s)
  {
    hide Exec, Inv;
    var acts :| Exec(Init(clients), acts) == Some(s);
    InitInv(clients);
    ReturnsRun(Init(clients), acts);
  }

  /** A release of an event that has returned, or is about to, has taken it off the complete list. */
  lemma {:induction false} ReleasedIsOff(clients: set<nat>, s: State, c: nat, e: Ev)
    requires Reachable(clients, s) && c in s.cl && (s.cl[c] == RlUnlock(e) || s.cl[c] == RlDone(e))
    ensures e in s.h.finished && e !in s.q.complete
  {
    hide Reachable;
    ReachedReturns(clients, s);
    assert ReturnInv(s, s.cl[c]);
  }

  /** A release of the queue that has returned has seen the worker exit. */
  lemma {:induction false} ReleaseJoins(clients: set<nat>, s: State, c: nat)
    requires Reachable(clients, s) && c in s.cl && s.cl[c] == RqDone
    ensures s.wpc == WDone
  {
    hide Reachable;
    ReachedReturns(clients, s);
    assert ReturnInv(s, s.cl[c]);
  }
}
