/**
 Loads over whole runs: a load returns a value the storage had at some state between
 its call and its return, on every path, for users, for `compare_and_swap` and for helpers alike.
 */
module Linearizability {
  import opened Machine
  import opened Protocol
  import opened Backing
  import opened History
  import opened Invariant

  /** Storages are modified one entry at a time and never disappear. */
  ghost predicate OneWrite(s: State, s': State) {
    && |s.storages| <= |s'.storages|
    && forall a :: 0 <= a < |s.storages| ==>
      s.storages[a].log <= s'.storages[a].log && |s'.storages[a].log| <= |s.storages[a].log| + 1
  }

  lemma LoadOneWrite(s: State, t: nat)
    requires CanLoad(s, t)
    ensures RunLoad(s, t).storages == s.storages
  {
    if !s.threads[t].load.pc.Done? { LoadStepMoves(s, t); }
  }

  lemma StepOneWrite(s: State, step: Step)
    requires Enabled(s, step)
    ensures OneWrite(s, Next(s, step))
  {
    if step.Run? && s.threads[step.t].load.Loading? { LoadOneWrite(s, step.t); }
  }

  /** Entry `k` of a log was the content of the storage at some state between two states of a run. */
  lemma {:induction false} WasContent(run: seq<State>, steps: seq<Step>, i: nat, j: nat, a: nat,
      k: nat) returns (m: nat)
    requires IsRun(run, steps) && i <= j < |run| && a < |run[i].storages| && 0 < |run[i].storages[a].log| <= k + 1
    requires a < |run[j].storages| && k < |run[j].storages[a].log|
    ensures i <= m <= j && a < |run[m].storages| && |run[m].storages[a].log| == k + 1
    ensures run[m].storages[a].log <= run[j].storages[a].log
    decreases j - i
  {
    if |run[i].storages[a].log| == k + 1 {
      m := i;
      LogsExtend(run, steps, i, j, a);
    } else {
      assert i < j by { if i == j { assert false; } }
      assert StepAt(run, steps, i);
      StepOneWrite(run[i], steps[i]);
      m := WasContent(run, steps, i + 1, j, a, k);
    }
  }

  lemma {:induction false} LogsExtend(run: seq<State>, steps: seq<Step>, i: nat, j: nat, a: nat)
    requires IsRun(run, steps) && i <= j < |run| && a < |run[i].storages|
    ensures a < |run[j].storages| && run[i].storages[a].log <= run[j].storages[a].log
    decreases j - i
  {
    if i < j {
      assert StepAt(run, steps, i);
      StepOneWrite(run[i], steps[i]);
      LogsExtend(run, steps, i + 1, j, a);
    }
  }

  // ---- A load in flight ----

  /** A step that leaves the load of `t` in flight leaves its storage and its start as they are. */
  ghost predicate SameLoad(s: State, s': State, t: nat) {
    t < |s.threads| && t < |s'.threads| &&
    (s.threads[t].load.Loading? && s'.threads[t].load.Loading? ==>
      s'.threads[t].load.a == s.threads[t].load.a && s'.threads[t].load.start == s.threads[t].load.start)
  }

  lemma PayThreads(s: State, t: nat)
    requires CanPay(s, t)
    ensures SameThreads(s, RunPay(s, t), t)
  {
  }

  /** A step of one thread leaves the others where they are. */
  lemma RunThreads(s: State, t: nat)
    requires Sane(s) && CanRun(s, t)
    ensures SameThreads(s, RunThread(s, t), t)
  {
    if s.threads[t].load.Loading? { LoadStepFrame(s, t); }
    else if Unattached(s.threads[t].op) {}
    else if s.threads[t].op.Pay? { PayThreads(s, t); }
    else { CasStepFrame(s, t); }
  }

  lemma OwnSameLoad(s: State, t: nat)
    requires Sane(s) && CanRun(s, t)
    ensures SameLoad(s, RunThread(s, t), t)
  {
    RunThreads(s, t);
    if s.threads[t].load.Loading? && !s.threads[t].load.pc.Done? { LoadStepMoves(s, t); }
  }

  lemma OtherThread(s: State, u: nat, t: nat)
    requires Sane(s) && CanRun(s, u) && u != t && t < |s.threads|
    ensures t < |RunThread(s, u).threads| && RunThread(s, u).threads[t] == s.threads[t]
  {
    RunThreads(s, u);
  }

  lemma StepSameLoad(s: State, step: Step, t: nat)
    requires Inv(s) && Enabled(s, step) && t < |s.threads|
    ensures SameLoad(s, Next(s, step), t)
  {
    assert ThreadOk(s, t);
    if step.Run? {
      if step.t == t { OwnSameLoad(s, t); } else { OtherThread(s, step.t, t); }
    }
  }

  /** The start of a load is the newest entry when it begins. */
  ghost predicate StartsNow(s: State, t: nat) {
    && t < |s.threads|
    && (s.threads[t].load.Loading? ==>
      s.threads[t].load.a < |s.storages| && |s.storages[s.threads[t].load.a].log| == s.threads[t].load.start + 1)
  }

  lemma PayStart(s: State, t: nat)
    requires CanPay(s, t) && |s.nodes| == |s.threads| && ThreadOk(s, t) && s.threads[t].load.NoLoad?
    ensures StartsNow(RunPay(s, t), t)
  {
  }

  lemma OwnStart(s: State, t: nat)
    requires CanRun(s, t) && |s.nodes| == |s.threads| && ThreadOk(s, t) && s.threads[t].load.NoLoad?
    ensures StartsNow(RunThread(s, t), t)
  {
    if s.threads[t].op.Pay? && !Unattached(s.threads[t].op) { PayStart(s, t); }
  }

  lemma StepStart(s: State, step: Step, t: nat)
    requires Inv(s) && Enabled(s, step) && t < |s.threads| && s.threads[t].load.NoLoad?
    ensures StartsNow(Next(s, step), t)
  {
    if step.Run? {
      assert ThreadOk(s, t);
      if step.t == t { OwnStart(s, t); } else { OtherThread(s, step.t, t); }
    }
  }

  /** The load of `t` that begins with step `i` is still in flight at state `j`. */
  ghost predicate InFlight(run: seq<State>, t: nat, i: nat, j: nat) {
    && i < j < |run| && t < |run[i].threads| && run[i].threads[t].load.NoLoad?
    && forall m :: i < m <= j ==> t < |run[m].threads| && run[m].threads[t].load.Loading?
  }

  lemma RunSameLoad(run: seq<State>, steps: seq<Step>, t: nat, k: nat)
    requires IsRun(run, steps) && k < |steps| && t < |run[k].threads|
    ensures SameLoad(run[k], run[k + 1], t)
  {
    RunsInv(run, steps, k);
    assert StepAt(run, steps, k);
    StepSameLoad(run[k], steps[k], t);
  }

  lemma RunStart(run: seq<State>, steps: seq<Step>, t: nat, i: nat)
    requires IsRun(run, steps) && i + 1 < |run| && t < |run[i].threads| && run[i].threads[t].load.NoLoad?
    ensures var s := run[i + 1]; t < |s.threads| && (s.threads[t].load.Loading? ==>
      s.threads[t].load.a < |s.storages| && |s.storages[s.threads[t].load.a].log| == s.threads[t].load.start + 1)
  {
    RunsInv(run, steps, i);
    assert StepAt(run, steps, i);
    StepStart(run[i], steps[i], t);
  }

  /** What the invariant says about a load in flight. */
  lemma FlightFacts(run: seq<State>, steps: seq<Step>, t: nat, m: nat)
    requires IsRun(run, steps) && m < |run| && t < |run[m].threads| && run[m].threads[t].load.Loading?
    ensures var s, l := run[m], run[m].threads[t].load;
      && l.a < |s.storages| && s.storages[l.a].alive && |s.storages[l.a].log| > 0
      && s.storages[l.a].log[|s.storages[l.a].log| - 1].ptr == s.storages[l.a].ptr
      && (l.pc.Done? ==> InLog(s, l.a, l.start, l.pc.lin, l.pc.ptr))
  {
    RunsInv(run, steps, m);
    assert ThreadOk(run[m], t);
  }

  lemma {:induction false} SteadyChain(run: seq<State>, t: nat, i: nat, j: nat)
    requires InFlight(run, t, i, j) && forall m: nat :: i < m < j ==> SameLoad(run[m], run[m + 1], t)
    ensures run[j].threads[t].load.a == run[i + 1].threads[t].load.a
    ensures run[j].threads[t].load.start == run[i + 1].threads[t].load.start
    decreases j
  {
    if i + 1 < j {
      SteadyChain(run, t, i, j - 1);
      assert SameLoad(run[j - 1], run[j - 1 + 1], t);
    }
  }

  lemma FlightIsSteady(run: seq<State>, steps: seq<Step>, t: nat, i: nat, j: nat)
    requires IsRun(run, steps) && InFlight(run, t, i, j)
    ensures run[j].threads[t].load.a == run[i + 1].threads[t].load.a
    ensures run[j].threads[t].load.start == run[i + 1].threads[t].load.start
  {
    forall m: nat | i < m < j ensures SameLoad(run[m], run[m + 1], t) { RunSameLoad(run, steps, t, m); }
    SteadyChain(run, t, i, j);
  }

  /** Every load is linearizable. */
  lemma LoadsAreLinearizable(run: seq<State>, steps: seq<Step>, t: nat, i: nat, j: nat) returns (m: nat)
    requires IsRun(run, steps) && InFlight(run, t, i, j) && run[j].threads[t].load.pc.Done?
    ensures var a := run[j].threads[t].load.a;
      && i < m <= j && a < |run[m].storages| && run[m].storages[a].alive
      && run[m].storages[a].ptr == run[j].threads[t].load.pc.ptr
  {
    var a, lin := run[j].threads[t].load.a, run[j].threads[t].load.pc.lin;
    RunStart(run, steps, t, i);
    FlightIsSteady(run, steps, t, i, j);
    FlightFacts(run, steps, t, j);
    m := WasContent(run, steps, i + 1, j, a, lin);
    FlightIsSteady(run, steps, t, i, m);
    FlightFacts(run, steps, t, m);
  }

  /** Successive loads of one thread from one storage never go back in its modification order. */
  lemma ReadsDoNotGoBack(run: seq<State>, steps: seq<Step>, n: nat, i: nat, j: nat)
    requires IsRun(run, steps) && n < |run| && i < j < |run[n].events|
    requires run[n].events[j].Loaded? && SameReader(run[n].events[i], run[n].events[j].t, run[n].events[j].a)
    ensures var s := run[n]; var a := s.events[j].a;
      && s.events[i].lin <= s.events[j].lin
      && InLog(s, a, 0, s.events[i].lin, s.events[i].ptr) && InLog(s, a, 0, s.events[j].lin, s.events[j].ptr)
  {
    RunsInv(run, steps, n);
    var s := run[n];
    assert EventOk(s, s.events[i]) && EventOk(s, s.events[j]);
  }

  /** Whatever a compare-exchange has installed stands directly behind what it expected. */
  lemma InstalledOverExpected(run: seq<State>, steps: seq<Step>, n: nat, a: nat, k: nat)
    requires IsRun(run, steps) && n < |run| && a < |run[n].storages|
    requires k < |run[n].storages[a].log| && run[n].storages[a].log[k].expected.Some?
    ensures k > 0 && run[n].storages[a].log[k - 1].ptr == run[n].storages[a].log[k].expected.value
  {
    RunsInv(run, steps, n);
    assert LogOk(run[n].storages[a].log);
  }
}
