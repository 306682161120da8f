/** What a run of the upload scheduler does, told from its events: who starts, who waits, and what an abort stops. */
module SchedulerRuns {
  import opened UploadScheduler

  /** The event is one of the first `i` of the run. */
  ghost predicate Happened(events: seq<Event>, i: nat, e: Event)
    requires i <= |events|
  {
    exists j :: 0 <= j < i && events[j] == e
  }

  lemma {:induction false} HappenedNext(events: seq<Event>, i: nat, e: Event)
    requires i < |events|
    ensures Happened(events, i + 1, e) <==> Happened(events, i, e) || events[i] == e
  {
    if events[i] == e { assert 0 <= i < i + 1; }
    if j :| 0 <= j < i && events[j] == e { assert 0 <= j < i + 1; }
  }

  lemma StepOfRun(concurrency: nat, states: seq<State>, events: seq<Event>, i: nat)
    requires |states| == |events| + 1 && i < |events|
    requires IsRun(concurrency, states, events)
    ensures Inv(concurrency, states[i]) && Enabled(states[i], events[i])
    ensures states[i + 1] == After(concurrency, states[i], events[i])
  {
    hide Inv, After, Enabled;
    RunKeepsInv(concurrency, states, events, i);
  }

  // ----- one event of a run -----

  /**
   * An abort takes a waiting task out of the line, which closes up, and the task is never started or called after.
   */
  lemma AbortedWaitersNeverStart(concurrency: nat, states: seq<State>, events: seq<Event>, i: nat, k: nat, t: Task, j: nat)
    requires |states| == |events| + 1 && i < j < |states| && events[i] == Abort(t)
    requires k < |states[i].pending| && states[i].pending[k] == t
    requires IsRun(concurrency, states, events)
    ensures states[i + 1].pending == states[i].pending[..k] + states[i].pending[k + 1..]
    ensures t !in states[j].pending && t !in states[j].started && t !in states[j].called
  {
    hide Inv, After;
    StepOfRun(concurrency, states, events, i);
    AbortStep(concurrency, states[i], t);
    WaiterIsCancelled(concurrency, states[i], t);
    CancelledNeverStarts(concurrency, states, events, i + 1, j, t);
    RunKeepsInv(concurrency, states, events, j);
    CancelledDoesNotWait(concurrency, states[j], t);
  }

  lemma WaiterIsCancelled(concurrency: nat, s: State, t: Task)
    requires Inv(concurrency, s) && t in s.pending
    ensures Enabled(s, Abort(t)) && var u := After(concurrency, s, Abort(t)); t in u.phase && u.phase[t] == Cancelled
  {
    hide Known, SlotsOk, Kept;
    assert IsWaiting(s.phase, t);
  }

  lemma CancelledDoesNotWait(concurrency: nat, s: State, t: Task)
    requires Inv(concurrency, s) && t in s.phase && s.phase[t] == Cancelled
    ensures t !in s.pending
  {
    hide Known, SlotsOk, Kept;
    assert t in s.pending <==> IsWaiting(s.phase, t);
  }

  /** The abort of a task that does not wait moves no task and frees no slot. */
  lemma OtherAbortsMoveNothing(concurrency: nat, states: seq<State>, events: seq<Event>, i: nat, t: Task)
    requires |states| == |events| + 1 && i < |events| && events[i] == Abort(t) && t !in states[i].pending
    requires IsRun(concurrency, states, events)
    ensures states[i + 1].pending == states[i].pending && states[i + 1].started == states[i].started
    ensures states[i + 1].called == states[i].called && states[i + 1].active == states[i].active
  {
    hide Inv, After;
    StepOfRun(concurrency, states, events, i);
    AbortStep(concurrency, states[i], t);
  }

  /** A task submitted with an aborted signal is refused for good. */
  lemma AbortedSubmissionsNeverStart(concurrency: nat, states: seq<State>, events: seq<Event>, i: nat, t: Task, j: nat)
    requires |states| == |events| + 1 && i < j < |states| && events[i] == Submit(t, true)
    requires IsRun(concurrency, states, events)
    ensures states[i + 1].pending == states[i].pending && states[i + 1].started == states[i].started
    ensures t !in states[j].pending && t !in states[j].started && t !in states[j].called
  {
    StepOfRun(concurrency, states, events, i);
    hide Inv, After;
    SubmitStep(concurrency, states[i], t, true);
    CancelledNeverStarts(concurrency, states, events, i + 1, j, t);
    RunKeepsInv(concurrency, states, events, j);
    CancelledDoesNotWait(concurrency, states[j], t);
  }

  /** Any other submission starts at once while a slot is free, and otherwise waits behind the others. */
  lemma SubmissionsStartOrWait(concurrency: nat, states: seq<State>, events: seq<Event>, i: nat, t: Task)
    requires |states| == |events| + 1 && i < |events| && events[i] == Submit(t, false)
    requires IsRun(concurrency, states, events)
    ensures states[i].active < concurrency ==> states[i + 1].started == states[i].started + [t] && states[i + 1].pending == []
    ensures states[i].active >= concurrency ==> states[i + 1].started == states[i].started && states[i + 1].pending == states[i].pending + [t]
  {
    hide Inv, After;
    StepOfRun(concurrency, states, events, i);
    SubmitStep(concurrency, states[i], t, false);
  }

  /** A task that settles hands its slot to the task that has waited longest. */
  lemma SlotsAreHandedOn(concurrency: nat, states: seq<State>, events: seq<Event>, i: nat, t: Task)
    requires |states| == |events| + 1 && i < |events| && events[i] == Settle(t)
    requires IsRun(concurrency, states, events)
    ensures states[i].pending == [] ==>
              states[i + 1].pending == [] && states[i + 1].started == states[i].started && states[i + 1].active == states[i].active - 1
    ensures states[i].pending != [] ==>
              && states[i + 1].started == states[i].started + [states[i].pending[0]]
              && states[i + 1].pending == states[i].pending[1..] && states[i + 1].active == states[i].active
  {
    hide Inv, After;
    StepOfRun(concurrency, states, events, i);
    SettleStep(concurrency, states[i], t);
  }

  // ----- the whole run -----

  /** The signals marked aborted are those of the abort events and of the refused submissions. */
  lemma {:induction false} AbortedAreTheAborts(concurrency: nat, states: seq<State>, events: seq<Event>, i: nat, t: Task)
    requires |states| == |events| + 1 && i < |states|
    requires IsRun(concurrency, states, events)
    ensures t in states[i].aborted <==> Happened(events, i, Abort(t)) || Happened(events, i, Submit(t, true))
    decreases i
  {
    hide Inv, Happened, Drained;
    if i > 0 {
      AbortedAreTheAborts(concurrency, states, events, i - 1, t);
      StepOfRun(concurrency, states, events, i - 1);
      AbortedNext(concurrency, states[i - 1], events[i - 1], t);
      HappenedNext(events, i - 1, Abort(t));
      HappenedNext(events, i - 1, Submit(t, true));
    } else {
      NothingHappened(events, Abort(t));
      NothingHappened(events, Submit(t, true));
    }
  }

  lemma NothingHappened(events: seq<Event>, e: Event)
    ensures !Happened(events, 0, e)
  {
  }

  lemma AbortedNext(concurrency: nat, s: State, e: Event, t: Task)
    requires Enabled(s, e)
    ensures t in After(concurrency, s, e).aborted <==> t in s.aborted || e == Abort(t) || e == Submit(t, true)
  {
  }

  /** The turn of a started task calls its operation exactly when no abort of it came before. */
  lemma CalledUnlessAborted(concurrency: nat, states: seq<State>, events: seq<Event>, i: nat, t: Task)
    requires |states| == |events| + 1 && i < |events| && events[i] == Begin(t)
    requires IsRun(concurrency, states, events)
    ensures t in states[i].started
    ensures states[i + 1].called == if exists j :: 0 <= j < i && events[j] == Abort(t) then states[i].called else states[i].called + [t]
  {
    hide Inv, After;
    StepOfRun(concurrency, states, events, i);
    BeginStep(concurrency, states[i], t);
    AbortedAreTheAborts(concurrency, states, events, i, t);
    StartingHasStarted(concurrency, states[i], t);
    if j :| 0 <= j < i && events[j] == Submit(t, true) {
      AbortedSubmissionsNeverStart(concurrency, states, events, j, t, i);
    }
  }

  lemma StartingHasStarted(concurrency: nat, s: State, t: Task)
    requires Inv(concurrency, s) && Enabled(s, Begin(t))
    ensures t in s.started
  {
    hide Known, SlotsOk, Kept;
    assert t in s.started <==> HasStarted(s.phase, t);
  }

  /** Settled means that the settlement happened. */
  lemma {:induction false} SettledHappened(concurrency: nat, states: seq<State>, events: seq<Event>, i: nat, t: Task)
    requires |states| == |events| + 1 && i < |states|
    requires IsRun(concurrency, states, events)
    ensures (t in states[i].phase && states[i].phase[t] == Settled) <==> Happened(events, i, Settle(t))
    decreases i
  {
    hide Inv, Happened, After;
    if i > 0 {
      SettledHappened(concurrency, states, events, i - 1, t);
      StepOfRun(concurrency, states, events, i - 1);
      SettledNext(concurrency, states[i - 1], events[i - 1], t);
      HappenedNext(events, i - 1, Settle(t));
    } else {
      NothingHappened(events, Settle(t));
    }
  }

  lemma SettledNext(concurrency: nat, s: State, e: Event, t: Task)
    requires Inv(concurrency, s) && Enabled(s, e)
    ensures var u := After(concurrency, s, e);
            (t in u.phase && u.phase[t] == Settled) <==> (t in s.phase && s.phase[t] == Settled) || e == Settle(t)
  {
    hide Known, SlotsOk, Kept, Drained;
    ActiveBound(concurrency, s);
    match e {
      case Submit(x, aborted) =>
        if !aborted {
          DrainSettlesNone(concurrency, s.(pending := s.pending + [x], submitted := s.submitted + [x], phase := s.phase[x := Waiting]), t);
        }
      case Settle(x) =>
        DrainSettlesNone(concurrency, s.(active := if s.active > 0 then s.active - 1 else 0, phase := s.phase[x := Settled]), t);
      case Abort(_) =>
      case Begin(_) =>
    }
  }

  lemma DrainSettlesNone(concurrency: nat, s: State, t: Task)
    requires forall x :: x in s.pending ==> IsWaiting(s.phase, x)
    ensures var u := Drained(concurrency, s); (t in u.phase && u.phase[t] == Settled) <==> (t in s.phase && s.phase[t] == Settled)
  {
    var free := if s.active >= concurrency then 0 else concurrency - s.active;
    var k := if free <= |s.pending| then free else |s.pending|;
    assert forall x :: x in s.pending[..k] ==> x in s.pending;
  }

  /** The slots taken are those of the tasks that started and have not settled, never more than allowed. */
  lemma SlotsAreTheUnsettled(concurrency: nat, states: seq<State>, events: seq<Event>, i: nat)
    requires |states| == |events| + 1 && i < |states|
    requires IsRun(concurrency, states, events)
    ensures states[i].active == |set t | t in states[i].started && !Happened(events, i, Settle(t))| <= concurrency
  {
    hide Inv, Happened, After;
    RunKeepsInv(concurrency, states, events, i);
    forall t ensures t in Holders(states[i].phase) <==> t in states[i].started && !Happened(events, i, Settle(t)) {
      SettledHappened(concurrency, states, events, i, t);
      HolderHasStarted(concurrency, states[i], t);
    }
    assert Holders(states[i].phase) == set t | t in states[i].started && !Happened(events, i, Settle(t));
    SlotsCounted(concurrency, states[i]);
  }

  lemma HolderHasStarted(concurrency: nat, s: State, t: Task)
    requires Inv(concurrency, s)
    ensures t in Holders(s.phase) <==> t in s.started && !(t in s.phase && s.phase[t] == Settled)
  {
    hide Known, SlotsOk, Kept;
    assert t in s.started <==> HasStarted(s.phase, t);
  }

  lemma SlotsCounted(concurrency: nat, s: State)
    requires Inv(concurrency, s)
    ensures s.active == |Holders(s.phase)| <= concurrency
  {
  }
}
