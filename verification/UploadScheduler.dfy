/** The upload scheduler: bounded concurrency, first come first served, with cancellation. */
module UploadScheduler {

  type Task = nat

  /**
   * Starting holds a slot before its operation is called; Called and Skipped hold it until they settle, the
   * latter because the signal was aborted before the operation was called.
   */
  datatype Phase = Waiting | Starting | Called | Skipped | Settled | Cancelled

  datatype State = State(
    active: nat, pending: seq<Task>, submitted: seq<Task>, started: seq<Task>, called: seq<Task>,
    aborted: set<Task>, phase: map<Task, Phase>)

  datatype Event = Submit(task: Task, aborted: bool) | Abort(task: Task) | Begin(task: Task) | Settle(task: Task)

  predicate Holds(p: Phase) {
    p == Starting || p == Called || p == Skipped
  }

  function Holders(phase: map<Task, Phase>): set<Task> {
    set t | t in phase && Holds(phase[t])
  }

  /** The submissions that were not cancelled, in order. */
  function Kept(submitted: seq<Task>, phase: map<Task, Phase>): seq<Task> {
    if submitted == [] then []
    else
      var last := submitted[|submitted| - 1];
      Kept(submitted[..|submitted| - 1], phase) + if last in phase && phase[last] == Cancelled then [] else [last]
  }

  function Without(s: seq<Task>, t: Task): seq<Task> {
    if s == [] then [] else if s[0] == t then Without(s[1..], t) else [s[0]] + Without(s[1..], t)
  }

  // ----- what each event does -----

  /** The phases once the tasks of `first` have started. */
  function Promoted(phase: map<Task, Phase>, first: seq<Task>): map<Task, Phase> {
    map t | t in phase :: if t in first then Starting else phase[t]
  }

  /** Free slots go to the tasks that have waited longest. */
  function Drained(concurrency: nat, s: State): State {
    var free := if s.active >= concurrency then 0 else concurrency - s.active;
    var k := if free <= |s.pending| then free else |s.pending|;
    s.(active := s.active + k, pending := s.pending[k..], started := s.started + s.pending[..k],
       phase := Promoted(s.phase, s.pending[..k]))
  }

  predicate Enabled(s: State, e: Event) {
    match e
    case Submit(t, _) => t !in s.phase
    case Abort(t) => t in s.phase
    case Begin(t) => t in s.phase && s.phase[t] == Starting
    case Settle(t) => t in s.phase && (s.phase[t] == Called || s.phase[t] == Skipped)
  }

  function After(concurrency: nat, s: State, e: Event): State
    requires Enabled(s, e)
  {
    match e
    case Submit(t, aborted) =>
      if aborted then s.(phase := s.phase[t := Cancelled], aborted := s.aborted + {t})
      else Drained(concurrency, s.(pending := s.pending + [t], submitted := s.submitted + [t], phase := s.phase[t := Waiting]))
    case Abort(t) =>
      if s.phase[t] == Waiting
      then s.(pending := Without(s.pending, t), phase := s.phase[t := Cancelled], aborted := s.aborted + {t})
      else s.(aborted := s.aborted + {t})
    case Begin(t) =>
      if t in s.aborted then s.(phase := s.phase[t := Skipped])
      else s.(phase := s.phase[t := Called], called := s.called + [t])
    case Settle(t) =>
      Drained(concurrency, s.(active := if s.active > 0 then s.active - 1 else 0, phase := s.phase[t := Settled]))
  }

  ghost predicate Distinct(s: seq<Task>) {
    forall i, j :: 0 <= i < j < |s| ==> s[i] != s[j]
  }

  /** Slots are counted exactly. */
  ghost predicate SlotsOk(concurrency: nat, active: nat, phase: map<Task, Phase>) {
    active == |Holders(phase)| <= concurrency
  }

  predicate IsWaiting(phase: map<Task, Phase>, t: Task) {
    t in phase && phase[t] == Waiting
  }

  predicate HasStarted(phase: map<Task, Phase>, t: Task) {
    t in phase && (Holds(phase[t]) || phase[t] == Settled)
  }

  /** The lists agree with the phases. */
  ghost predicate ListsOk(started: seq<Task>, pending: seq<Task>, phase: map<Task, Phase>) {
    && (forall t :: t in pending <==> IsWaiting(phase, t))
    && (forall t :: t in started <==> HasStarted(phase, t))
  }

  /** Slots are counted, and tasks start in the order they came. */
  ghost predicate Counted(concurrency: nat, s: State) {
    && SlotsOk(concurrency, s.active, s.phase) && ListsOk(s.started, s.pending, s.phase)
    && s.started + s.pending == Kept(s.submitted, s.phase)
  }

  /** Tasks are known by their phase; an operation is called at most once, and only for a task that started. */
  ghost predicate Known(submitted: seq<Task>, called: seq<Task>, phase: map<Task, Phase>) {
    && Distinct(submitted) && Distinct(called)
    && (forall t :: t in submitted ==> t in phase)
    && (forall t :: t in called ==> t in phase && (phase[t] == Called || phase[t] == Settled))
  }

  /** No slot is free while a task waits. */
  ghost predicate Inv(concurrency: nat, s: State) {
    Counted(concurrency, s) && Known(s.submitted, s.called, s.phase) && (s.pending != [] ==> s.active == concurrency)
  }

  // ----- what each event means for the lists -----

  /** A submission is refused when its signal was aborted before; otherwise it starts in a free slot or waits at the end. */
  ghost predicate SubmitEffect(concurrency: nat, before: State, after: State, t: Task, aborted: bool) {
    && after.called == before.called
    && (aborted ==> after.pending == before.pending && after.started == before.started && after.active == before.active)
    && (!aborted && before.active < concurrency ==>
          after.pending == [] && after.started == before.started + [t] && after.active == before.active + 1)
    && (!aborted && before.active >= concurrency ==>
          after.pending == before.pending + [t] && after.started == before.started && after.active == before.active)
  }

  /** An aborted task leaves the waiting line, which closes up; nothing else moves. */
  ghost predicate AbortEffect(before: State, after: State, t: Task) {
    && (forall k :: 0 <= k < |before.pending| && before.pending[k] == t ==> after.pending == before.pending[..k] + before.pending[k + 1..])
    && (t !in before.pending ==> after.pending == before.pending)
    && after.started == before.started && after.called == before.called && after.active == before.active
    && after.aborted == before.aborted + {t}
  }

  /** The operation is called unless its signal was aborted; the slot stays taken either way. */
  ghost predicate BeginEffect(before: State, after: State, t: Task) {
    && after.called == (if t in before.aborted then before.called else before.called + [t])
    && after.pending == before.pending && after.started == before.started && after.active == before.active
  }

  /** The slot goes to the task that has waited longest, or is free. */
  ghost predicate SettleEffect(before: State, after: State) {
    && after.called == before.called
    && (before.pending == [] ==> after.pending == [] && after.started == before.started && after.active == before.active - 1)
    && (before.pending != [] ==>
          && after.pending == before.pending[1..] && after.started == before.started + [before.pending[0]]
          && after.active == before.active)
  }

  lemma SubmitStep(concurrency: nat, s: State, t: Task, aborted: bool)
    requires Inv(concurrency, s) && t !in s.phase
    ensures SubmitEffect(concurrency, s, After(concurrency, s, Submit(t, aborted)), t, aborted)
  {
    hide SlotsOk, ListsOk, Known, Kept;
    ActiveBound(concurrency, s);
    if !aborted && s.active < concurrency { assert s.pending + [t] == [t]; }
  }

  lemma AbortStep(concurrency: nat, s: State, t: Task)
    requires Inv(concurrency, s) && t in s.phase
    ensures AbortEffect(s, After(concurrency, s, Abort(t)), t)
  {
    hide Kept, Known, SlotsOk;
    assert t in s.pending <==> IsWaiting(s.phase, t);
    WithoutMembers(s.pending, t);
    if t in s.pending {
      LinesDistinct(s);
      assert s.started + (s.pending + []) == s.started + s.pending;
      PartsDistinct(s.started, s.pending, []);
      forall k | 0 <= k < |s.pending| && s.pending[k] == t
        ensures Without(s.pending, t) == s.pending[..k] + s.pending[k + 1..]
      {
        WithoutOne(s.pending, t, k);
      }
    }
  }

  lemma {:induction false} WithoutOne(s: seq<Task>, t: Task, k: nat)
    requires Distinct(s) && k < |s| && s[k] == t
    ensures Without(s, t) == s[..k] + s[k + 1..]
    decreases |s|
  {
    if k == 0 {
      WithoutMembers(s[1..], t);
    } else {
      WithoutOne(s[1..], t, k - 1);
      assert s[..k] == [s[0]] + s[1..][..k - 1];
    }
  }

  lemma BeginStep(concurrency: nat, s: State, t: Task)
    requires Enabled(s, Begin(t))
    ensures BeginEffect(s, After(concurrency, s, Begin(t)), t)
  {
  }

  lemma SettleStep(concurrency: nat, s: State, t: Task)
    requires Inv(concurrency, s) && Enabled(s, Settle(t))
    ensures SettleEffect(s, After(concurrency, s, Settle(t)))
  {
    hide ListsOk, Known, Kept;
    assert t in Holders(s.phase);
    ActiveBound(concurrency, s);
  }

  /** The scheduler's closure state; the history is kept for the specification only. */
  class Scheduler {
    const concurrency: nat
    var active: nat
    var pending: seq<Task>
    ghost var submitted: seq<Task>
    ghost var started: seq<Task>
    ghost var called: seq<Task>
    ghost var phase: map<Task, Phase>
    var aborted: set<Task>

    ghost function View(): State
      reads this
    {
      State(active, pending, submitted, started, called, aborted, phase)
    }

    /** The source throws for a concurrency below one. */
    constructor (concurrency: nat)
      requires concurrency >= 1
      ensures this.concurrency == concurrency && View() == State(0, [], [], [], [], {}, map[])
    {
      this.concurrency, active, pending := concurrency, 0, [];
      submitted, started, called, aborted, phase := [], [], [], {}, map[];
    }

    method Start(t: Task)
      modifies this
      ensures View() == old(View()).(active := old(active) + 1, started := old(started) + [t], phase := old(phase)[t := Starting])
    {
      active := active + 1;
      started, phase := started + [t], phase[t := Starting];
    }

    method Drain()
      requires forall t :: t in pending ==> t in phase
      modifies this
      ensures View() == Drained(concurrency, old(View()))
    {
      ghost var s, k := View(), 0;
      while active < concurrency && |pending| > 0
        invariant 0 <= k <= |s.pending| && (k > 0 ==> active <= concurrency)
        invariant View() == s.(active := s.active + k, pending := s.pending[k..], started := s.started + s.pending[..k], phase := phase)
        invariant phase == Promoted(s.phase, s.pending[..k])
        decreases |pending|
      {
        var first := pending[0];
        assert s.pending[..k + 1] == s.pending[..k] + [first];
        pending := pending[1..];
        Start(first);
        k := k + 1;
      }
    }

    method Run(t: Task, abortedBefore: bool)
      requires Inv(concurrency, View()) && Enabled(View(), Submit(t, abortedBefore))
      modifies this
      ensures View() == After(concurrency, old(View()), Submit(t, abortedBefore))
      ensures SubmitEffect(concurrency, old(View()), View(), t, abortedBefore)
    {
      SubmitStep(concurrency, View(), t, abortedBefore);
      if abortedBefore {
        phase, aborted := phase[t := Cancelled], aborted + {t};
        return;
      }
      submitted, phase := submitted + [t], phase[t := Waiting];
      pending := pending + [t];
      Drain();
    }

    /** The abort listener: it cancels a task that is still waiting and otherwise only marks its signal. */
    method OnAbort(t: Task)
      requires Inv(concurrency, View()) && Enabled(View(), Abort(t))
      modifies this
      ensures View() == After(concurrency, old(View()), Abort(t))
      ensures AbortEffect(old(View()), View(), t)
    {
      AbortStep(concurrency, View(), t);
      aborted := aborted + {t};
      if t in pending {
        pending := Without(pending, t);
        phase := phase[t := Cancelled];
      }
    }

    /** The microtask of a started task: the operation is called unless the signal was aborted meanwhile. */
    method BeginOperation(t: Task) returns (calls: bool)
      requires Inv(concurrency, View()) && Enabled(View(), Begin(t))
      modifies this
      ensures View() == After(concurrency, old(View()), Begin(t)) && calls == (t !in old(aborted))
      ensures BeginEffect(old(View()), View(), t)
    {
      BeginStep(concurrency, View(), t);
      calls := t !in aborted;
      phase := phase[t := if calls then Called else Skipped];
      if calls { called := called + [t]; }
    }

    method OnSettled(t: Task)
      requires Inv(concurrency, View()) && Enabled(View(), Settle(t))
      modifies this
      ensures View() == After(concurrency, old(View()), Settle(t))
      ensures SettleEffect(old(View()), View())
    {
      SettleStep(concurrency, View(), t);
      assert t in Holders(phase);
      active := active - 1;
      phase := phase[t := Settled];
      Drain();
    }
  }

  // ----- every event keeps the invariant -----

  lemma {:induction false} KeptSame(submitted: seq<Task>, p: map<Task, Phase>, q: map<Task, Phase>)
    requires forall t :: t in submitted ==> ((t in p && p[t] == Cancelled) <==> (t in q && q[t] == Cancelled))
    ensures Kept(submitted, p) == Kept(submitted, q)
    decreases |submitted|
  {
    if submitted != [] { KeptSame(submitted[..|submitted| - 1], p, q); }
  }

  lemma {:induction false} KeptDistinct(submitted: seq<Task>, p: map<Task, Phase>)
    requires Distinct(submitted)
    ensures Distinct(Kept(submitted, p)) && forall t :: t in Kept(submitted, p) ==> t in submitted
    decreases |submitted|
  {
    if submitted != [] {
      var front, last := submitted[..|submitted| - 1], submitted[|submitted| - 1];
      KeptDistinct(front, p);
      assert submitted == front + [last] && last !in front;
    }
  }

  lemma {:induction false} WithoutMembers(s: seq<Task>, t: Task)
    ensures forall x :: x in Without(s, t) <==> x in s && x != t
    ensures t !in s ==> Without(s, t) == s
    decreases |s|
  {
    if s != [] {
      WithoutMembers(s[1..], t);
      assert s == [s[0]] + s[1..];
    }
  }

  lemma {:induction false} WithoutSplits(a: seq<Task>, b: seq<Task>, t: Task)
    ensures Without(a + b, t) == Without(a, t) + Without(b, t)
    decreases |a|
  {
    if a == [] {
      assert a + b == b;
    } else {
      assert (a + b)[1..] == a[1..] + b;
      WithoutSplits(a[1..], b, t);
    }
  }

  lemma {:induction false} KeptCancel(submitted: seq<Task>, p: map<Task, Phase>, t: Task)
    requires t in p && p[t] != Cancelled
    ensures Kept(submitted, p[t := Cancelled]) == Without(Kept(submitted, p), t)
    decreases |submitted|
  {
    if submitted != [] {
      var front, last := submitted[..|submitted| - 1], submitted[|submitted| - 1];
      KeptCancel(front, p, t);
      WithoutSplits(Kept(front, p), if last in p && p[last] == Cancelled then [] else [last], t);
    }
  }

  function Members(s: seq<Task>): set<Task> {
    set t | t in s
  }

  lemma {:induction false} DistinctSize(s: seq<Task>)
    requires Distinct(s)
    ensures |Members(s)| == |s|
    decreases |s|
  {
    if s != [] {
      var front, last := s[..|s| - 1], s[|s| - 1];
      DistinctSize(front);
      assert s == front + [last] && last !in front;
      assert Members(s) == Members(front) + {last};
    }
  }

  /** The parts of a list without repetitions share nothing. */
  lemma PartsDistinct(a: seq<Task>, b: seq<Task>, c: seq<Task>)
    requires Distinct(a + (b + c))
    ensures Distinct(b) && forall t :: t in b ==> t !in a && t !in c
  {
    var all := a + (b + c);
    assert forall i :: 0 <= i < |a| ==> all[i] == a[i];
    assert forall i :: 0 <= i < |b| ==> all[|a| + i] == b[i];
    assert forall i :: 0 <= i < |c| ==> all[|a| + |b| + i] == c[i];
  }

  lemma PromotedSlots(concurrency: nat, active: nat, phase: map<Task, Phase>, first: seq<Task>)
    requires SlotsOk(concurrency, active, phase) && Distinct(first) && active + |first| <= concurrency
    requires forall t :: t in first ==> IsWaiting(phase, t)
    ensures SlotsOk(concurrency, active + |first|, Promoted(phase, first))
  {
    assert Holders(Promoted(phase, first)) == Holders(phase) + Members(first);
    assert Holders(phase) !! Members(first);
    DistinctSize(first);
  }

  lemma PromotedLists(started: seq<Task>, first: seq<Task>, rest: seq<Task>, phase: map<Task, Phase>)
    requires ListsOk(started, first + rest, phase) && forall t :: t in first ==> t !in rest
    ensures ListsOk(started + first, rest, Promoted(phase, first))
  {
    var q := Promoted(phase, first);
    forall t ensures t in rest <==> IsWaiting(q, t) {
      assert t in first + rest <==> IsWaiting(phase, t);
    }
    forall t ensures t in started + first <==> HasStarted(q, t) {
      assert t in started <==> HasStarted(phase, t);
      assert t in first ==> t in first + rest;
    }
  }

  lemma PromotedOrder(submitted: seq<Task>, phase: map<Task, Phase>, first: seq<Task>)
    requires forall t :: t in first ==> IsWaiting(phase, t)
    ensures Kept(submitted, Promoted(phase, first)) == Kept(submitted, phase)
  {
    KeptSame(submitted, phase, Promoted(phase, first));
  }

  lemma DrainKeepsInv(concurrency: nat, s: State)
    requires Counted(concurrency, s) && Known(s.submitted, s.called, s.phase)
    ensures Inv(concurrency, Drained(concurrency, s))
  {
    hide SlotsOk, ListsOk, Known, IsWaiting, Promoted, Kept, Distinct;
    ActiveBound(concurrency, s);
    var free := if s.active >= concurrency then 0 else concurrency - s.active;
    var k := if free <= |s.pending| then free else |s.pending|;
    var first, rest := s.pending[..k], s.pending[k..];
    assert s.pending == first + rest && (s.started + first) + rest == s.started + (first + rest);
    LinesDistinct(s);
    PartsDistinct(s.started, first, rest);
    assert forall t :: t in first ==> t in s.pending;
    PromotedSlots(concurrency, s.active, s.phase, first);
    PromotedLists(s.started, first, rest, s.phase);
    PromotedOrder(s.submitted, s.phase, first);
    PromotedKnown(s, first);
  }

  lemma LinesDistinct(s: State)
    requires Known(s.submitted, s.called, s.phase) && s.started + s.pending == Kept(s.submitted, s.phase)
    ensures Distinct(s.started + s.pending)
  {
    KeptDistinct(s.submitted, s.phase);
  }

  lemma ActiveBound(concurrency: nat, s: State)
    requires Counted(concurrency, s)
    ensures s.active <= concurrency
    ensures forall t :: t in s.pending ==> IsWaiting(s.phase, t)
  {
  }

  lemma PromotedKnown(s: State, first: seq<Task>)
    requires Known(s.submitted, s.called, s.phase) && forall t :: t in first ==> IsWaiting(s.phase, t)
    ensures Known(s.submitted, s.called, Promoted(s.phase, first))
  {
  }

  lemma EnteredLists(started: seq<Task>, pending: seq<Task>, phase: map<Task, Phase>, t: Task)
    requires ListsOk(started, pending, phase) && t !in phase
    ensures ListsOk(started, pending + [t], phase[t := Waiting])
  {
    forall x ensures x in pending + [t] <==> IsWaiting(phase[t := Waiting], x) {
      assert x in pending <==> IsWaiting(phase, x);
    }
    forall x ensures x in started <==> HasStarted(phase[t := Waiting], x) {
      assert x in started <==> HasStarted(phase, x);
    }
  }

  lemma EnteredOrder(submitted: seq<Task>, phase: map<Task, Phase>, t: Task)
    requires t !in phase
    ensures Kept(submitted + [t], phase[t := Waiting]) == Kept(submitted, phase) + [t]
  {
    assert (submitted + [t])[..|submitted|] == submitted;
    KeptSame(submitted, phase, phase[t := Waiting]);
  }

  lemma EnteredKnown(s: State, t: Task)
    requires Known(s.submitted, s.called, s.phase) && t !in s.phase
    ensures Known(s.submitted + [t], s.called, s.phase[t := Waiting])
  {
  }

  lemma EnteredSlots(concurrency: nat, active: nat, phase: map<Task, Phase>, t: Task)
    requires SlotsOk(concurrency, active, phase) && t !in phase
    ensures SlotsOk(concurrency, active, phase[t := Waiting])
  {
    assert Holders(phase[t := Waiting]) == Holders(phase);
  }

  lemma SubmitKeepsInv(concurrency: nat, s: State, t: Task)
    requires Inv(concurrency, s) && t !in s.phase
    ensures Inv(concurrency, After(concurrency, s, Submit(t, false)))
  {
    hide SlotsOk, ListsOk, Known, Drained, Kept;
    EnteredKnown(s, t);
    EnteredSlots(concurrency, s.active, s.phase, t);
    EnteredLists(s.started, s.pending, s.phase, t);
    EnteredOrder(s.submitted, s.phase, t);
    var u := s.(pending := s.pending + [t], submitted := s.submitted + [t], phase := s.phase[t := Waiting]);
    assert u.started + u.pending == (s.started + s.pending) + [t];
    DrainKeepsInv(concurrency, u);
  }

  lemma RefusedKeepsInv(concurrency: nat, s: State, t: Task)
    requires Inv(concurrency, s) && t !in s.phase
    ensures Inv(concurrency, After(concurrency, s, Submit(t, true)))
  {
    assert Holders(s.phase[t := Cancelled]) == Holders(s.phase);
    KeptSame(s.submitted, s.phase, s.phase[t := Cancelled]);
  }

  lemma CancelledLists(started: seq<Task>, pending: seq<Task>, phase: map<Task, Phase>, t: Task)
    requires ListsOk(started, pending, phase) && IsWaiting(phase, t)
    ensures ListsOk(started, Without(pending, t), phase[t := Cancelled])
    ensures t !in started
  {
    WithoutMembers(pending, t);
    var q := phase[t := Cancelled];
    assert t in started <==> HasStarted(phase, t);
    forall x ensures x in Without(pending, t) <==> IsWaiting(q, x) {
      assert x in pending <==> IsWaiting(phase, x);
    }
    forall x ensures x in started <==> HasStarted(q, x) {
      assert x in started <==> HasStarted(phase, x);
    }
  }

  lemma AbortKeepsInv(concurrency: nat, s: State, t: Task)
    requires Inv(concurrency, s) && t in s.phase
    ensures Inv(concurrency, After(concurrency, s, Abort(t)))
  {
    if s.phase[t] == Waiting {
      assert Holders(s.phase[t := Cancelled]) == Holders(s.phase);
      assert Known(s.submitted, s.called, s.phase[t := Cancelled]);
      CancelledLists(s.started, s.pending, s.phase, t);
      hide ListsOk, Kept, Without, Holders;
      KeptCancel(s.submitted, s.phase, t);
      WithoutSplits(s.started, s.pending, t);
      WithoutMembers(s.started, t);
      WithoutMembers(s.pending, t);
    }
  }

  lemma SamePlaces(started: seq<Task>, pending: seq<Task>, phase: map<Task, Phase>, t: Task, p: Phase)
    requires ListsOk(started, pending, phase) && t in phase && Holds(phase[t]) && (Holds(p) || p == Settled)
    ensures ListsOk(started, pending, phase[t := p])
  {
    var q := phase[t := p];
    forall x ensures x in pending <==> IsWaiting(q, x) {
      assert x in pending <==> IsWaiting(phase, x);
    }
    forall x ensures x in started <==> HasStarted(q, x) {
      assert x in started <==> HasStarted(phase, x);
    }
  }

  lemma BeginKeepsInv(concurrency: nat, s: State, t: Task)
    requires Inv(concurrency, s) && Enabled(s, Begin(t))
    ensures Inv(concurrency, After(concurrency, s, Begin(t)))
  {
    var p := if t in s.aborted then Skipped else Called;
    assert Holders(s.phase[t := p]) == Holders(s.phase);
    SamePlaces(s.started, s.pending, s.phase, t, p);
    KeptSame(s.submitted, s.phase, s.phase[t := p]);
    hide ListsOk, Kept, Holders;
    assert t !in s.called;
  }

  lemma SettleKeepsInv(concurrency: nat, s: State, t: Task)
    requires Inv(concurrency, s) && Enabled(s, Settle(t))
    ensures Inv(concurrency, After(concurrency, s, Settle(t)))
  {
    var phase := s.phase[t := Settled];
    assert t in Holders(s.phase) && Holders(phase) == Holders(s.phase) - {t};
    KeptSame(s.submitted, s.phase, phase);
    SamePlaces(s.started, s.pending, s.phase, t, Settled);
    assert Known(s.submitted, s.called, phase);
    hide ListsOk, Kept, Known, Drained, Holders;
    var u := s.(active := s.active - 1, phase := phase);
    DrainKeepsInv(concurrency, u);
  }

  lemma EventKeepsInv(concurrency: nat, s: State, e: Event)
    requires Inv(concurrency, s) && Enabled(s, e)
    ensures Inv(concurrency, After(concurrency, s, e))
  {
    hide Inv, After;
    match e {
      case Submit(t, aborted) => if aborted { RefusedKeepsInv(concurrency, s, t); } else { SubmitKeepsInv(concurrency, s, t); }
      case Abort(t) => AbortKeepsInv(concurrency, s, t);
      case Begin(t) => BeginKeepsInv(concurrency, s, t);
      case Settle(t) => SettleKeepsInv(concurrency, s, t);
    }
  }

  // ----- every run -----

  ghost predicate IsRun(concurrency: nat, states: seq<State>, events: seq<Event>) {
    && |states| == |events| + 1 && states[0] == State(0, [], [], [], [], {}, map[])
    && forall i :: 0 <= i < |events| ==> Enabled(states[i], events[i]) && states[i + 1] == After(concurrency, states[i], events[i])
  }

  /** In every state of every run the invariant holds. */
  lemma {:induction false} RunKeepsInv(concurrency: nat, states: seq<State>, events: seq<Event>, i: nat)
    requires IsRun(concurrency, states, events) && i < |states|
    ensures Inv(concurrency, states[i])
    decreases i
  {
    if i == 0 {
      assert Holders(states[0].phase) == {};
    } else {
      hide Inv, After;
      RunKeepsInv(concurrency, states, events, i - 1);
      assert Enabled(states[i - 1], events[i - 1]) && states[i - 1 + 1] == After(concurrency, states[i - 1], events[i - 1]);
      EventKeepsInv(concurrency, states[i - 1], events[i - 1]);
    }
  }

  /** A cancelled task never takes a slot, and no operation of its is ever called. */
  lemma {:induction false} CancelledNeverStarts(concurrency: nat, states: seq<State>, events: seq<Event>, i: nat, j: nat, t: Task)
    requires IsRun(concurrency, states, events) && i <= j < |states| && t in states[i].phase && states[i].phase[t] == Cancelled
    ensures t in states[j].phase && states[j].phase[t] == Cancelled
    ensures t !in states[j].started && t !in states[j].called
    decreases j
  {
    hide Inv, After;
    RunKeepsInv(concurrency, states, events, j);
    if i < j {
      CancelledNeverStarts(concurrency, states, events, i, j - 1, t);
      assert Enabled(states[j - 1], events[j - 1]) && states[j - 1 + 1] == After(concurrency, states[j - 1], events[j - 1]);
      RunKeepsInv(concurrency, states, events, j - 1);
      CancelledStays(concurrency, states[j - 1], events[j - 1], t);
    }
    CancelledIsOut(concurrency, states[j], t);
  }

  lemma CancelledIsOut(concurrency: nat, s: State, t: Task)
    requires Inv(concurrency, s) && t in s.phase && s.phase[t] == Cancelled
    ensures t !in s.started && t !in s.called
  {
  }

  lemma CancelledStays(concurrency: nat, s: State, e: Event, t: Task)
    requires Inv(concurrency, s) && Enabled(s, e) && t in s.phase && s.phase[t] == Cancelled
    ensures var u := After(concurrency, s, e); t in u.phase && u.phase[t] == Cancelled
  {
    assert t !in s.pending;
  }

  /** Aborting a running task frees nothing: its slot goes back only when it settles. */
  lemma AbortedKeepsSlot(concurrency: nat, s: State, t: Task)
    requires Inv(concurrency, s) && t in s.phase && Holds(s.phase[t])
    ensures var u := After(concurrency, s, Abort(t));
            u.active == s.active && u.pending == s.pending && u.started == s.started && Holders(u.phase) == Holders(s.phase)
  {
  }

  /** Started tasks are the earliest of those submitted and never cancelled, in order; the others wait in order. */
  lemma StartsAreInOrder(concurrency: nat, states: seq<State>, events: seq<Event>, i: nat)
    requires IsRun(concurrency, states, events) && i < |states|
    ensures states[i].started <= Kept(states[i].submitted, states[i].phase)
    ensures states[i].pending == Kept(states[i].submitted, states[i].phase)[|states[i].started|..]
    ensures states[i].active <= concurrency && (states[i].pending != [] ==> states[i].active == concurrency)
  {
    RunKeepsInv(concurrency, states, events, i);
  }
}
