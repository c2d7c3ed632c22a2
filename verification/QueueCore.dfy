/** The data guarded by a device's queue mutex (struct coprthr_command_queue together with the
    cmd_stat of its events), and the updates the source makes to it while holding that mutex.
    The step functions are shared by the imperative class below and by the transition system
    in QueueMachine. */
module QueueCore {
  import opened Basics

  type Ev = nat

  const COMPLETE := 0
  const RUNNING := 1
  const SUBMITTED := 2
  const QUEUED := 3

  datatype Core = Core(
    qstat: nat,
    queued: seq<Ev>,
    submitted: Option<Ev>,
    running: Option<Ev>,
    complete: seq<Ev>,
    stat: map<Ev, int>)

  const Empty := Core(0, [], None, None, [], map[])

  /** TAILQ_REMOVE: unlinks the entry, keeping the order of the others. */
  function Unlink(s: seq<Ev>, e: Ev): (r: seq<Ev>)
    ensures e in s ==> |r| == |s| - 1 && forall x :: x in r ==> x in s
    ensures e !in s ==> r == s
  {
    if s == [] then [] else if s[0] == e then s[1..] else [s[0]] + Unlink(s[1..], e)
  }

  lemma {:induction false} UnlinkKeepsDistinct(s: seq<Ev>, e: Ev)
    requires Distinct(s)
    ensures Distinct(Unlink(s, e)) && e !in Unlink(s, e)
    ensures forall x :: x in s && x != e ==> x in Unlink(s, e)
  {
    if s != [] && s[0] != e {
      UnlinkKeepsDistinct(s[1..], e);
      assert s[0] !in s[1..];
    }
  }

  function Enqueue(q: Core, e: Ev): Core {
    q.(stat := q.stat[e := QUEUED], queued := q.queued + [e])
  }

  function Remove(q: Core, e: Ev): Core { q.(queued := Unlink(q.queued, e)) }

  function Submit(q: Core, e: Ev): Core {
    q.(submitted := Some(e), stat := q.stat[e := SUBMITTED])
  }

  function ClearSubmitted(q: Core): Core { q.(submitted := None) }

  function Run(q: Core, e: Ev): Core {
    q.(running := Some(e), stat := q.stat[e := RUNNING])
  }

  function ClearRunning(q: Core): Core { q.(running := None) }

  function Complete(q: Core, e: Ev): Core {
    q.(complete := q.complete + [e], stat := q.stat[e := COMPLETE])
  }

  function Release(q: Core, e: Ev): Core { q.(complete := Unlink(q.complete, e)) }

  /** The three worker phases on one event, run without a client in between. */
  function Phases(q: Core): Core
    requires q.queued != []
  {
    var e := q.queued[0];
    Complete(ClearRunning(Run(ClearSubmitted(Submit(Remove(q, e), e)), e)), e)
  }

  /** Serving an event moves it from the head of the queue to the end of the complete list. */
  lemma {:induction false} PhasesMoveHead(q: Core)
    requires q.queued != []
    ensures Phases(q) == Core(q.qstat, q.queued[1..], None, None, q.complete + [q.queued[0]],
                              q.stat[q.queued[0] := COMPLETE])
  {
    var e := q.queued[0];
    assert q.stat[e := SUBMITTED][e := RUNNING][e := COMPLETE] == q.stat[e := COMPLETE];
  }

  /** Unlinking takes one entry out and keeps the others in their order. */
  lemma {:induction false} UnlinkSplits(s: seq<Ev>, e: Ev) returns (i: nat)
    requires e in s
    ensures i < |s| && s[i] == e && Unlink(s, e) == s[..i] + s[i + 1..]
  {
    if s[0] == e {
      i := 0;
    } else {
      var j := UnlinkSplits(s[1..], e);
      i := j + 1;
      assert s[..i] == [s[0]] + s[1..][..j];
    }
  }

  /** The queue object, updated in place: one method for each stretch the source runs under the
      queue mutex, and one for the command call that the worker makes between two of them. The
      ghost fields are the histories of enqueues, of command calls and of completions. */
  class CommandQueue {
    var qstat: nat
    var queued: seq<Ev>
    var submitted: Option<Ev>
    var running: Option<Ev>
    var complete: seq<Ev>
    var stat: map<Ev, int>
    ghost var enq: seq<Ev>
    ghost var calls: seq<Ev>
    ghost var finished: seq<Ev>

    ghost function View(): Core
      reads this
    {
      Core(qstat, queued, submitted, running, complete, stat)
    }

    /** The events in the two slots. */
    ghost function Serving(): seq<Ev>
      reads this
    {
      (if submitted.Some? then [submitted.value] else [])
      + (if running.Some? then [running.value] else [])
    }

    /** Nothing is lost, repeated or overtaken: what was enqueued is, in order, what is finished,
        what is in a slot and what is queued, and the status of an event says which. */
    ghost predicate Valid()
      reads this
    {
      && enq == finished + Serving() + queued && Distinct(enq) && |Serving()| <= 1
      && finished <= calls <= finished + Serving() && (running.Some? ==> calls == finished + Serving())
      && (forall e :: e in finished ==> e in stat && stat[e] == COMPLETE)
      && (forall e :: e in queued ==> e in stat && stat[e] == QUEUED)
      && (submitted.Some? ==> submitted.value in stat && stat[submitted.value] == SUBMITTED)
      && (running.Some? ==> running.value in stat && stat[running.value] == RUNNING)
      && Distinct(complete) && forall e :: e in complete ==> e in finished
    }

    /** __coprthr_init_command_queue followed by the qstat transition 0 -> 1. */
    constructor ()
      ensures Valid() && View() == Empty.(qstat := 1) && enq == [] && calls == []
    {
      qstat, queued, submitted, running, complete, stat := 1, [], None, None, [], map[];
      enq, calls, finished := [], [], [];
    }

    /** A client enqueues; the worker may have an event in a slot. */
    method EnqueueCmd(e: Ev)
      requires Valid() && e !in enq
      modifies this
      ensures Valid() && enq == old(enq) + [e] && calls == old(calls) && finished == old(finished)
      ensures Serving() == old(Serving()) && complete == old(complete) && qstat == old(qstat)
      ensures stat == old(stat)[e := QUEUED]
    {
      stat := stat[e := QUEUED];
      queued := queued + [e];
      enq := enq + [e];
      DistinctAppend(old(enq), e);
    }

    /** A client releases a completed event; the worker may have another one in a slot. */
    method ReleaseEvent(e: Ev)
      requires Valid() && e in complete
      modifies this
      ensures Valid() && enq == old(enq) && calls == old(calls) && finished == old(finished)
      ensures e !in complete
      ensures exists i :: 0 <= i < |old(complete)| && old(complete)[i] == e
                && complete == old(complete)[..i] + old(complete)[i + 1..]
      ensures View() == old(View()).(complete := complete)
    {
      ghost var i := UnlinkSplits(complete, e);
      UnlinkKeepsDistinct(complete, e);
      complete := Unlink(complete, e);
    }

    /** cmdsched.c:92-108: the oldest event that is not finished goes to the submitted slot. */
    method SubmitHead() returns (e: Ev)
      requires Valid() && Serving() == [] && queued != []
      modifies this
      ensures Valid() && enq == old(enq) && calls == old(calls) && finished == old(finished)
      ensures |finished| < |enq| && e == enq[|finished|] && Serving() == [e] && submitted == Some(e)
      ensures View() == Submit(Remove(old(View()), e), e)
    {
      e := queued[0];
      assert enq == finished + queued;
      HeadInTheMiddle(finished, queued);
      queued := Unlink(queued, e);
      submitted := Some(e);
      stat := stat[e := SUBMITTED];
    }

    /** cmdsched.c:113, without the mutex: commands are called in the order of their enqueue. */
    method CallCommand(e: Ev)
      requires Valid() && submitted == Some(e) && calls == finished
      modifies this`calls
      ensures Valid() && calls == old(calls) + [e] && calls <= enq
    {
      calls := calls + [e];
    }

    /** cmdsched.c:134-137: from the submitted to the running slot. */
    method RunSubmitted() returns (e: Ev)
      requires Valid() && submitted.Some? && calls == finished + Serving()
      modifies this
      ensures Valid() && enq == old(enq) && calls == old(calls) && finished == old(finished)
      ensures Serving() == old(Serving()) == [e] && running == Some(e)
      ensures View() == Run(ClearSubmitted(old(View())), e)
    {
      e := submitted.value;
      assert enq == finished + ([e] + queued);
      HeadInTheMiddle(finished, [e] + queued);
      submitted := None;
      running := Some(e);
      stat := stat[e := RUNNING];
    }

    /** cmdsched.c:155-158: from the running slot to the complete list. */
    method CompleteRunning() returns (e: Ev)
      requires Valid() && running.Some?
      modifies this
      ensures Valid() && enq == old(enq) && calls == old(calls) && finished == old(finished) + [e]
      ensures calls == finished && Serving() == [] && old(running) == Some(e)
      ensures View() == Complete(ClearRunning(old(View())), e)
    {
      e := running.value;
      assert enq == finished + ([e] + queued);
      HeadInTheMiddle(finished, [e] + queued);
      running := None;
      complete := complete + [e];
      stat := stat[e := COMPLETE];
      finished := finished + [e];
      DistinctAppend(old(complete), e);
    }

    /** One round of the inner worker loop, cmdsched.c:92-166, with no client between its parts. */
    method ServeHead() returns (e: Ev)
      requires Valid() && Serving() == [] && queued != []
      modifies this
      ensures Valid() && enq == old(enq) && Serving() == [] && calls == finished
      ensures e == old(queued)[0] && finished == old(finished) + [e] && calls == old(calls) + [e]
      ensures queued == old(queued)[1..] && complete == old(complete) + [e] && qstat == old(qstat)
    {
      PhasesMoveHead(View());
      e := SubmitHead();
      CallCommand(e);
      var r := RunSubmitted();
      var c := CompleteRunning();
    }

    /** The inner worker loop: with no further enqueues every event that was ever enqueued is
        called and completed, in the order of the enqueues. */
    method Drain()
      requires Valid() && Serving() == []
      modifies this
      ensures Valid() && Serving() == [] && queued == [] && qstat == old(qstat)
      ensures enq == old(enq) && finished == enq && calls == enq
      ensures complete == old(complete) + old(queued)
    {
      ghost var served := 0;
      while queued != []
        invariant Valid() && Serving() == [] && enq == old(enq) && qstat == old(qstat)
        invariant served <= |old(queued)| && queued == old(queued)[served..]
        invariant complete == old(complete) + old(queued)[..served]
        decreases |queued|
      {
        assert old(queued)[..served + 1] == old(queued)[..served] + [queued[0]];
        var e := ServeHead();
        served := served + 1;
      }
      assert old(queued)[..served] == old(queued);
    }
  }

  /** What follows from the repetition-freedom of all enqueued events for the one being served. */
  lemma {:induction false} HeadInTheMiddle(f: seq<Ev>, q: seq<Ev>)
    requires q != [] && Distinct(f + q)
    ensures (f + q)[|f|] == q[0] && q[0] !in f && q[0] !in q[1..]
    ensures f + q == f + [q[0]] + q[1..]
    ensures forall x :: x in f ==> x !in q
  {
    assert f + [] + q == f + q;
    DistinctParts(f, [], q);
    assert q[0] in q;
  }
}
