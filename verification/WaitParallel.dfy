/** Waiting for several waiters at once: every waiter runs on its own and sends its result over one
    unbuffered channel, and a collector receives until it has counted every waiter and closes the
    channel.  Any interleaving of the steps is a run. */
module WaitParallel {

  import opened Errors

  type Outcome = Option<Error>

  datatype Waiter = Working | Sending(outcome: Outcome) | Done(outcome: Outcome)

  datatype Collector = Ranging | Got(from: nat) | Finished

  /** `received` is the order in which results were counted; `panicked` a send on the closed channel. */
  datatype State = State(
    waiters: seq<Waiter>, collector: Collector, received: seq<nat>, count: nat, errors: seq<Error>, closed: bool, panicked: bool)

  function Initial(n: nat): State
  {
    State(seq(n, i => Working), Ranging, [], 0, [], false, false)
  }

  datatype Step =
    | Finish(i: nat, outcome: Outcome)
    | Deliver(i: nat)
    | Count
    | End
    | SendOnClosed(i: nat)

  predicate Enabled(s: State, step: Step)
  {
    !s.panicked &&
    match step
    case Finish(i, _) => i < |s.waiters| && s.waiters[i].Working?
    case Deliver(i) => i < |s.waiters| && s.waiters[i].Sending? && s.collector.Ranging? && !s.closed
    case Count => s.collector.Got? && s.collector.from < |s.waiters| && s.waiters[s.collector.from].Done?
    case End => s.collector.Ranging? && s.closed
    case SendOnClosed(i) => i < |s.waiters| && s.waiters[i].Sending? && s.closed
  }

  function Next(s: State, step: Step): State
    requires Enabled(s, step)
  {
    match step
    case Finish(i, o) => s.(waiters := s.waiters[i := Sending(o)])
    case Deliver(i) => s.(waiters := s.waiters[i := Done(s.waiters[i].outcome)], collector := Got(i))
    case Count =>
      var o := s.waiters[s.collector.from].outcome;
      s.(collector := Ranging, received := s.received + [s.collector.from], count := s.count + 1,
         errors := s.errors + (if o.Some? then [o.value] else []), closed := s.count + 1 == |s.waiters|)
    case End => s.(collector := Finished)
    case SendOnClosed(_) => s.(panicked := true)
  }

  ghost predicate IsRun(n: nat, states: seq<State>, steps: seq<Step>)
  {
    && |states| == |steps| + 1 && states[0] == Initial(n)
    && forall k :: 0 <= k < |steps| ==> Enabled(states[k], steps[k]) && states[k + 1] == Next(states[k], steps[k])
  }

  // ---- the invariant ----

  function DoneSet(ws: seq<Waiter>): set<nat> { set i: nat | i < |ws| && ws[i].Done? }

  function Range(n: nat): (r: set<nat>)
    ensures |r| == n && forall i: nat :: i in r <==> i < n
  {
    if n == 0 then {} else Range(n - 1) + {n - 1}
  }

  /** As many distinct indices as there are waiters are all of them. */
  lemma AllDone(ws: seq<Waiter>)
    ensures |DoneSet(ws)| <= |ws|
    ensures |DoneSet(ws)| == |ws| ==> forall i :: 0 <= i < |ws| ==> ws[i].Done?
  {
    var done, all := DoneSet(ws), Range(|ws|);
    assert all == done + (all - done);
    if |done| == |ws| {
      assert all - done == {};
      forall i | 0 <= i < |ws| ensures ws[i].Done? {
        assert i in all;
      }
    }
  }

  /** The errors of the results counted so far, in their order. */
  function ErrorsOf(ws: seq<Waiter>, received: seq<nat>, n: nat): seq<Error>
    requires n <= |received| && forall k :: 0 <= k < |received| ==> received[k] < |ws| && ws[received[k]].Done?
  {
    if n == 0 then []
    else
      var o := ws[received[n - 1]].outcome;
      ErrorsOf(ws, received, n - 1) + (if o.Some? then [o.value] else [])
  }

  ghost predicate Counted(s: State)
  {
    && (forall k :: 0 <= k < |s.received| ==> s.received[k] < |s.waiters| && s.waiters[s.received[k]].Done?)
    && (forall k, l :: 0 <= k < l < |s.received| ==> s.received[k] != s.received[l])
    && s.errors == ErrorsOf(s.waiters, s.received, |s.received|)
  }

  /** Every finished waiter was counted, except one the collector has in hand. */
  ghost predicate Accounted(s: State)
  {
    && (s.collector.Got? ==> s.collector.from < |s.waiters| && s.waiters[s.collector.from].Done? && s.collector.from !in s.received)
    && (forall i :: 0 <= i < |s.waiters| && s.waiters[i].Done? ==> i in s.received || s.collector == Got(i))
    && s.count == |s.received|
    && |DoneSet(s.waiters)| == s.count + (if s.collector.Got? then 1 else 0)
  }

  ghost predicate Inv(s: State)
  {
    && Counted(s) && Accounted(s)
    && (s.closed <==> s.count == |s.waiters| && s.count > 0)
    && (s.collector.Finished? ==> s.closed)
    && !s.panicked
  }

  lemma {:induction false} ErrorsKept(ws: seq<Waiter>, ws': seq<Waiter>, received: seq<nat>, received': seq<nat>, n: nat)
    requires n <= |received| <= |received'| && received' [..|received|] == received && |ws'| == |ws|
    requires forall k :: 0 <= k < |received| ==> received[k] < |ws| && ws[received[k]].Done?
    requires forall k :: 0 <= k < |received'| ==> received'[k] < |ws'| && ws'[received'[k]].Done?
    requires forall i :: 0 <= i < |ws| && ws[i].Done? ==> ws'[i] == ws[i]
    ensures ErrorsOf(ws', received', n) == ErrorsOf(ws, received, n)
  {
    if n > 0 {
      ErrorsKept(ws, ws', received, received', n - 1);
      assert received'[n - 1] == received'[..|received|][n - 1];
    }
  }

  lemma FinishKeeps(s: State, i: nat, o: Outcome)
    requires Inv(s) && Enabled(s, Finish(i, o))
    ensures Inv(Next(s, Finish(i, o)))
  {
    var s' := Next(s, Finish(i, o));
    assert DoneSet(s'.waiters) == DoneSet(s.waiters);
    ErrorsKept(s.waiters, s'.waiters, s.received, s'.received, |s.received|);
  }

  lemma DeliverKeeps(s: State, i: nat)
    requires Inv(s) && Enabled(s, Deliver(i))
    ensures Inv(Next(s, Deliver(i)))
  {
    var s' := Next(s, Deliver(i));
    DoneOneMore(s.waiters, i);
    assert Counted(s') by {
      ErrorsKept(s.waiters, s'.waiters, s.received, s'.received, |s.received|);
    }
  }

  lemma DoneOneMore(ws: seq<Waiter>, i: nat)
    requires i < |ws| && ws[i].Sending?
    ensures |DoneSet(ws[i := Done(ws[i].outcome)])| == |DoneSet(ws)| + 1
  {
    assert DoneSet(ws[i := Done(ws[i].outcome)]) == DoneSet(ws) + {i};
  }

  lemma CountCounts(s: State)
    requires Inv(s) && Enabled(s, Count)
    ensures Counted(Next(s, Count))
  {
    var s' := Next(s, Count);
    ErrorsKept(s.waiters, s'.waiters, s.received, s'.received, |s.received|);
  }

  lemma CountAccounts(s: State)
    requires Accounted(s) && Enabled(s, Count)
    ensures Accounted(Next(s, Count))
  {
    hide DoneSet;
    var s' := Next(s, Count);
    assert forall x :: x in s'.received <==> x in s.received || x == s.collector.from;
  }

  lemma CountKeeps(s: State)
    requires Inv(s) && Enabled(s, Count)
    ensures Inv(Next(s, Count))
  {
    CountCounts(s);
    CountAccounts(s);
    AllDone(s.waiters);
    hide Counted;
  }

  /** Once the channel is closed nobody wants to send any more. */
  lemma ClosedIsQuiet(s: State)
    requires Inv(s) && s.closed
    ensures forall i :: 0 <= i < |s.waiters| ==> s.waiters[i].Done?
    ensures !s.collector.Got?
  {
    AllDone(s.waiters);
  }

  lemma StepKeeps(s: State, step: Step)
    requires Inv(s) && Enabled(s, step)
    ensures Inv(Next(s, step)) && !step.SendOnClosed?
  {
    match step
    case Finish(i, o) => FinishKeeps(s, i, o);
    case Deliver(i) => DeliverKeeps(s, i);
    case Count => CountKeeps(s);
    case End => {}
    case SendOnClosed(i) => ClosedIsQuiet(s);
  }

  lemma {:induction false} RunKeeps(n: nat, states: seq<State>, steps: seq<Step>, k: nat)
    requires IsRun(n, states, steps) && k < |states|
    ensures Inv(states[k]) && |states[k].waiters| == n
  {
    if k > 0 {
      RunKeeps(n, states, steps, k - 1);
      StepKeeps(states[k - 1], steps[k - 1]);
    } else {
      assert DoneSet(states[0].waiters) == {};
    }
  }

  // ---- what a run does ----

  /** Under every interleaving nothing is ever sent on the closed channel. */
  lemma NothingSentAfterClose(n: nat, states: seq<State>, steps: seq<Step>, k: nat)
    requires IsRun(n, states, steps) && k < |states|
    ensures !states[k].panicked && forall i :: !Enabled(states[k], SendOnClosed(i))
  {
    RunKeeps(n, states, steps, k);
    if states[k].closed {
      ClosedIsQuiet(states[k]);
    }
  }

  lemma {:induction false} ErrorsExactly(ws: seq<Waiter>, received: seq<nat>, n: nat)
    requires n <= |received| && forall k :: 0 <= k < |received| ==> received[k] < |ws| && ws[received[k]].Done?
    ensures forall e :: e in ErrorsOf(ws, received, n) <==> exists k :: 0 <= k < n && ws[received[k]].outcome == Some(e)
  {
    if n > 0 {
      ErrorsExactly(ws, received, n - 1);
      forall e | e in ErrorsOf(ws, received, n) ensures exists k :: 0 <= k < n && ws[received[k]].outcome == Some(e) {
        if e !in ErrorsOf(ws, received, n - 1) {
          assert ws[received[n - 1]].outcome == Some(e);
        }
      }
    }
  }

  /** When the collector is finished, every waiter has finished and its result was counted exactly
      once; the collected errors are the errors of the failing waiters, in the order of arrival, and
      there are none exactly if nobody failed. */
  lemma FinishedExactly(n: nat, states: seq<State>, steps: seq<Step>, k: nat)
    requires IsRun(n, states, steps) && k < |states| && states[k].collector.Finished?
    ensures var s := states[k];
      && |s.waiters| == |s.received| == n && n > 0
      && (forall i :: 0 <= i < n ==> s.waiters[i].Done? && i in s.received)
      && (forall a, b :: 0 <= a < b < n ==> s.received[a] != s.received[b])
      && (forall e :: e in s.errors <==> exists i :: 0 <= i < n && s.waiters[i].outcome == Some(e))
      && (s.errors == [] <==> forall i :: 0 <= i < n ==> s.waiters[i].outcome == None)
  {
    RunKeeps(n, states, steps, k);
    var s := states[k];
    ClosedIsQuiet(s);
    ErrorsExactly(s.waiters, s.received, n);
    forall i | 0 <= i < n && s.waiters[i].outcome.Some? ensures s.waiters[i].outcome.value in s.errors {
      var j :| 0 <= j < |s.received| && s.received[j] == i;
    }
    if s.errors != [] {
      assert s.errors[0] in s.errors;
    }
  }

  // ---- progress ----

  function Cost(w: Waiter): nat { match w case Working => 3 case Sending(_) => 2 case Done(_) => 0 }

  /** The steps still to come. */
  function Left(ws: seq<Waiter>, n: nat): nat
    requires n <= |ws|
  {
    if n == 0 then 0
    else Left(ws, n - 1) + Cost(ws[n - 1])
  }

  function Remaining(s: State): nat
  {
    Left(s.waiters, |s.waiters|) + (match s.collector case Ranging => 1 case Got(_) => 2 case Finished => 0)
  }

  lemma {:induction false} LeftUpdate(ws: seq<Waiter>, i: nat, w: Waiter, n: nat)
    requires i < |ws| && n <= |ws|
    ensures Left(ws[i := w], n) == Left(ws, n) + (if i < n then Cost(w) - Cost(ws[i]) else 0)
  {
    if n > 0 {
      LeftUpdate(ws, i, w, n - 1);
    }
  }

  lemma StepCounts(s: State, step: Step)
    requires Inv(s) && Enabled(s, step)
    ensures Remaining(Next(s, step)) == Remaining(s) - 1
  {
    StepKeeps(s, step);
    match step
    case Finish(i, o) => LeftUpdate(s.waiters, i, Sending(o), |s.waiters|);
    case Deliver(i) => LeftUpdate(s.waiters, i, Done(s.waiters[i].outcome), |s.waiters|);
    case Count => {}
    case End => {}
    case SendOnClosed(_) => {}
  }

  lemma {:induction false} LeftInitially(ws: seq<Waiter>, n: nat)
    requires n <= |ws| && forall i :: 0 <= i < |ws| ==> ws[i].Working?
    ensures Left(ws, n) == 3 * n
  {
    if n > 0 {
      LeftInitially(ws, n - 1);
    }
  }

  lemma {:induction false} StepsTaken(n: nat, states: seq<State>, steps: seq<Step>, k: nat)
    requires IsRun(n, states, steps) && k < |states|
    ensures Remaining(states[k]) + k == 3 * n + 1
  {
    if k == 0 {
      LeftInitially(states[0].waiters, n);
    } else {
      StepsTaken(n, states, steps, k - 1);
      RunKeeps(n, states, steps, k - 1);
      StepCounts(states[k - 1], steps[k - 1]);
    }
  }

  ghost predicate Stuck(s: State) { forall step :: !Enabled(s, step) }

  lemma SomethingToDo(s: State)
    requires Inv(s) && |s.waiters| > 0 && !s.collector.Finished?
    ensures !Stuck(s)
  {
    if s.collector.Got? {
      assert Enabled(s, Count);
    } else if s.closed {
      assert Enabled(s, End);
    } else {
      AllUnfinished(s);
      var i :| 0 <= i < |s.waiters| && !s.waiters[i].Done?;
      if s.waiters[i].Working? {
        assert Enabled(s, Finish(i, None));
      } else {
        assert Enabled(s, Deliver(i));
      }
    }
  }

  lemma AllUnfinished(s: State)
    requires Inv(s) && |s.waiters| > 0 && s.collector.Ranging? && !s.closed
    ensures exists i :: 0 <= i < |s.waiters| && !s.waiters[i].Done?
  {
    assert (forall i :: 0 <= i < |s.waiters| ==> s.waiters[i].Done?) ==> DoneSet(s.waiters) == Range(|s.waiters|);
  }

  /** With at least one waiter every run can be continued until the collector is finished, which is
      the case after exactly 3n + 1 steps. */
  lemma AlwaysEnds(n: nat, states: seq<State>, steps: seq<Step>)
    requires n > 0 && IsRun(n, states, steps)
    ensures |steps| <= 3 * n + 1
    ensures Stuck(states[|steps|]) <==> |steps| == 3 * n + 1
    ensures Stuck(states[|steps|]) <==> states[|steps|].collector.Finished?
  {
    var s := states[|steps|];
    StepsTaken(n, states, steps, |steps|);
    RunKeeps(n, states, steps, |steps|);
    if s.collector.Finished? {
      ClosedIsQuiet(s);
      NothingLeft(s.waiters, n);
    } else {
      SomethingToDo(s);
      assert Remaining(s) > 0;
    }
  }

  lemma {:induction false} NothingLeft(ws: seq<Waiter>, n: nat)
    requires n <= |ws| && forall i :: 0 <= i < |ws| ==> ws[i].Done?
    ensures Left(ws, n) == 0
  {
    if n > 0 {
      NothingLeft(ws, n - 1);
    }
  }

  /** Without waiters the collector waits forever: nothing can happen and it is not finished. */
  lemma NoWaitersNeverEnds(n: nat, states: seq<State>, steps: seq<Step>)
    requires n == 0 && IsRun(n, states, steps)
    ensures steps == [] && Stuck(states[0]) && !states[0].collector.Finished?
  {
    assert Stuck(Initial(0));
    if steps != [] {
      FirstStep(n, states, steps);
      assert false;
    }
  }

  lemma FirstStep(n: nat, states: seq<State>, steps: seq<Step>)
    requires IsRun(n, states, steps) && steps != []
    ensures Enabled(Initial(n), steps[0])
  {}
}
