/**
 What a whole call takes from the program and gives to it: with the step that returns it gives just the value it
 returns, alive and with a count or a debt of its own, and what it has used up is given back.
 */
module Delivery {
  import opened Ledger
  import opened Machine
  import opened Ownership
  import opened Protocol
  import opened History
  import opened Invariant
  import opened Linearizability
  import opened Exchanges
  import opened Accounts
  import Safety

  /** No step of thread `t` from `i` to `k` gives anything to the program or takes anything from it. */
  ghost predicate GivesNothing(run: seq<State>, steps: seq<Step>, i: nat, k: nat, t: nat) {
    forall j: nat :: i <= j < k ==> Untouched(run, steps, j, t)
  }

  ghost predicate Untouched(run: seq<State>, steps: seq<Step>, j: nat, t: nat) {
    && |run| == |steps| + 1 && j < |steps|
    && (Actor(run[j], steps[j]) == t ==> Hand(run[j + 1]) == Hand(run[j]))
  }

  /** In state `k` the program has claim `g` on `p`, and the object is alive. */
  ghost predicate Has(run: seq<State>, k: nat, g: nat, p: Ptr) {
    && k < |run| && g in Hand(run[k]) && run[k].book.claims[g].ptr == p && Fits(run[k].book.claims[g].kind, WGuard)
    && p < |run[k].book.cnt| && run[k].book.cnt[p] >= 1
  }

  ghost predicate Spent(run: seq<State>, k: nat, c: nat) {
    k < |run| && c < |run[k].book.claims| && run[k].book.claims[c].kind.Spent?
  }

  lemma ReturnAlive(s: State, g: nat)
    requires Inv(s) && g in Hand(s) && Fits(s.book.claims[g].kind, WGuard)
    ensures s.book.claims[g].ptr < |s.book.cnt| && s.book.cnt[s.book.claims[g].ptr] >= 1
  {
    assert Placed(s.book.claims, Expecting(s), g);
    Safety.ReachedIsAlive(s, g);
  }

  /** A thread that stays in its call gives nothing. */
  lemma StaysUntouched(run: seq<State>, steps: seq<Step>, j: nat, t: nat)
    requires IsRun(run, steps) && j < |steps| && InCalls(run, j, j + 1, t) && !run[j].threads[t].op.Detached?
    ensures Untouched(run, steps, j, t)
  {
    RunsInv(run, steps, j);
    assert StepAt(run, steps, j);
    StepAccounted(run[j], steps[j]);
    if Actor(run[j], steps[j]) == t { StaysWithout(run[j], steps[j], t); }
  }

  /** A step that leaves the thread in its call is not the one that returns. */
  lemma StaysWithout(s: State, step: Step, t: nat)
    requires Inv(s) && Enabled(s, step) && Actor(s, step) == t < |s.threads|
    requires !s.threads[t].op.Ready? && !s.threads[t].op.Detached?
    requires t < |Next(s, step).threads| && !Next(s, step).threads[t].op.Ready?
    requires Accounted(s, step, Next(s, step))
    ensures Hand(Next(s, step)) == Hand(s)
  {
    assert ThreadOk(s, t);
  }

  /** The step with which thread `t` returns gives what the thread has to return. */
  lemma ReturnGives(run: seq<State>, steps: seq<Step>, k: nat, t: nat)
    requires IsRun(run, steps) && k < |steps| && Actor(run[k], steps[k]) == t < |run[k].threads|
    requires !run[k].threads[t].op.Ready? && !run[k].threads[t].op.Detached? && !run[k].threads[t].op.Attaching?
    requires t < |run[k + 1].threads| && run[k + 1].threads[t].op.Ready?
    ensures GivesResult(run[k], run[k + 1], t) && steps[k] == Run(t)
    ensures match Result(run[k].threads[t])
      case Some((g, p)) => Has(run, k + 1, g, p)
      case None => run[k].threads[t].op.Pay? && run[k].threads[t].op.after.Destroy?
  {
    RunsInv(run, steps, k);
    RunsInv(run, steps, k + 1);
    assert StepAt(run, steps, k);
    StepAccounted(run[k], steps[k]);
    ReturningStep(run[k], steps[k], t);
    if Result(run[k].threads[t]).Some? { ReturnAlive(run[k + 1], Result(run[k].threads[t]).value.0); }
  }

  lemma ReturningStep(s: State, step: Step, t: nat)
    requires Inv(s) && Enabled(s, step) && Actor(s, step) == t < |s.threads|
    requires !s.threads[t].op.Ready? && !s.threads[t].op.Detached? && !s.threads[t].op.Attaching?
    requires t < |Next(s, step).threads| && Next(s, step).threads[t].op.Ready?
    ensures step == Run(t)
    ensures Result(s.threads[t]).Some? || (s.threads[t].op.Pay? && s.threads[t].op.after.Destroy?)
  {
    assert ThreadOk(s, t);
    if step.Run? && s.threads[t].load.Loading? && !s.threads[t].load.pc.Done? { LoadStepMoves(s, t); }
  }

  // ---- swap, into_inner and the destructor ----

  /** A writer on its way through `pay_all` gives nothing. */
  lemma PayingGivesNothing(run: seq<State>, steps: seq<Step>, b: nat, k: nat, t: nat)
    requires IsRun(run, steps) && b <= k < |steps| && InCalls(run, b, k, t) && run[b].threads[t].op.Pay?
    ensures GivesNothing(run, steps, b, k, t)
  {
    forall j: nat | b <= j < k ensures PayProceeds(run, steps, j, t) { RunPayProceeds(run, steps, j, t); }
    forall j: nat | b <= j < k ensures Untouched(run, steps, j, t) {
      PayChain(run, steps, b, j, t);
      StaysUntouched(run, steps, j, t);
    }
  }

  /**
   `swap`: the call takes the new value from the program with its first step and gives it, with its last, the very count
   that the storage had on the old value. In between it neither takes nor gives.
   */
  lemma SwapHandsOver(run: seq<State>, steps: seq<Step>, i: nat, k: nat, t: nat, a: nat, c: nat)
    returns (g: nat, p: Ptr)
    requires IsRun(run, steps) && i < k < |steps| && steps[i] == SwapIn(t, a, c) && StepAt(run, steps, i)
    requires InCalls(run, i + 1, k, t) && Actor(run[k], steps[k]) == t
    requires t < |run[k + 1].threads| && run[k + 1].threads[t].op.Ready?
    ensures Takes(run[i], run[i + 1], c) && GivesNothing(run, steps, i + 1, k, t)
    ensures Gives(run[k], run[k + 1], g, p) && Has(run, k + 1, g, p) && run[k + 1].book.claims[g].kind.Owned?
    ensures p == run[i].storages[a].ptr && g == run[i].storages[a].claim
    ensures run[k + 1].events ==
      run[k].events + [SwapReturned(t, a, Newest(run[i], a), p, Some(run[i].book.claims[c].ptr))]
  {
    StepsAreAccounted(run, steps, i);
    PayingGivesNothing(run, steps, i + 1, k, t);
    PayReturns(run, steps, i + 1, k, t);
    ReturnGives(run, steps, k, t);
    ValIsOwned(run, steps, k, t);
    g, p := run[i].storages[a].claim, run[i].storages[a].ptr;
  }

  /** What a writer has taken out of a storage is a full count until it returns. */
  lemma ReturningVal(s: State, t: nat)
    requires AllHeld(s) && CanPay(s, t) && s.threads[t].load.NoLoad? && s.threads[t].op.pc.PayRet?
    ensures var o, b := s.threads[t].op, RunPay(s, t).book;
      && o.val < |b.claims|
      && (if o.after.RetOld? then b.claims[o.val].kind.Owned? else b.claims[o.val].kind.Spent?)
  {
    Served(s, t, Val);
    if s.threads[t].op.after.RetGuard? { Served(s, t, OldGuard); }
  }

  lemma ValIsOwned(run: seq<State>, steps: seq<Step>, k: nat, t: nat)
    requires IsRun(run, steps) && k < |steps| && Actor(run[k], steps[k]) == t < |run[k].threads|
    requires run[k].threads[t].op.Pay? && t < |run[k + 1].threads| && run[k + 1].threads[t].op.Ready?
    ensures var o, b := run[k].threads[t].op, run[k + 1].book;
      && o.val < |b.claims|
      && (if o.after.RetOld? then b.claims[o.val].kind.Owned? else b.claims[o.val].kind.Spent?)
  {
    RunsInv(run, steps, k);
    assert StepAt(run, steps, k);
    ReturningPay(run[k], steps[k], t);
    ReturningVal(run[k], t);
  }

  lemma ReturningPay(s: State, step: Step, t: nat)
    requires Inv(s) && Enabled(s, step) && Actor(s, step) == t < |s.threads| && s.threads[t].op.Pay?
    requires t < |Next(s, step).threads| && Next(s, step).threads[t].op.Ready?
    ensures s.threads[t].load.NoLoad? && CanPay(s, t) && s.threads[t].op.pc.PayRet? && Next(s, step) == RunPay(s, t)
  {
    assert ThreadOk(s, t);
    if step.Run? && s.threads[t].load.Loading? && !s.threads[t].load.pc.Done? { LoadStepMoves(s, t); }
  }

  /** `into_inner`: the program gets the very count that the storage had, and nothing before the return. */
  lemma IntoInnerHandsOver(run: seq<State>, steps: seq<Step>, i: nat, k: nat, t: nat, a: nat) returns (g: nat, p: Ptr)
    requires IsRun(run, steps) && i < k < |steps| && steps[i] == TakeOut(t, a, false) && StepAt(run, steps, i)
    requires InCalls(run, i + 1, k, t) && Actor(run[k], steps[k]) == t
    requires t < |run[k + 1].threads| && run[k + 1].threads[t].op.Ready?
    ensures Hand(run[i + 1]) == Hand(run[i]) && GivesNothing(run, steps, i + 1, k, t)
    ensures Gives(run[k], run[k + 1], g, p) && Has(run, k + 1, g, p) && run[k + 1].book.claims[g].kind.Owned?
    ensures p == run[i].storages[a].ptr && g == run[i].storages[a].claim
    ensures run[k + 1].events == run[k].events + [SwapReturned(t, a, Newest(run[i], a), p, None)]
  {
    StepsAreAccounted(run, steps, i);
    PayingGivesNothing(run, steps, i + 1, k, t);
    PayReturns(run, steps, i + 1, k, t);
    ReturnGives(run, steps, k, t);
    ValIsOwned(run, steps, k, t);
    g, p := run[i].storages[a].claim, run[i].storages[a].ptr;
  }

  /** The destructor gives back the count that the storage had; the program gets nothing. */
  lemma DestructorReleases(run: seq<State>, steps: seq<Step>, i: nat, k: nat, t: nat, a: nat)
    requires IsRun(run, steps) && i < k < |steps| && steps[i] == TakeOut(t, a, true) && StepAt(run, steps, i)
    requires InCalls(run, i + 1, k, t) && Actor(run[k], steps[k]) == t
    requires t < |run[k + 1].threads| && run[k + 1].threads[t].op.Ready?
    ensures GivesNothing(run, steps, i, k + 1, t)
    ensures Spent(run, k + 1, run[i].storages[a].claim)
  {
    StepsAreAccounted(run, steps, i);
    PayingGivesNothing(run, steps, i + 1, k, t);
    PayReturns(run, steps, i + 1, k, t);
    ReturnGives(run, steps, k, t);
    ValIsOwned(run, steps, k, t);
  }

  // ---- compare_and_swap ----

  lemma CasGivesNothing(run: seq<State>, steps: seq<Step>, i: nat, k: nat, t: nat, a: nat, cur: Ptr, neu: Ptr)
    requires IsRun(run, steps) && CasCall(run, steps, i, k, t, a, cur, neu) && k < |steps|
    ensures GivesNothing(run, steps, i + 1, k, t)
  {
    forall j: nat | i + 1 <= j < k ensures Untouched(run, steps, j, t) {
      var e := CasCallSoFar(run, steps, i, j, t, a, cur, neu);
      StaysUntouched(run, steps, j, t);
    }
  }

  /** The new value of a missed `compare_and_swap` is released when it returns. */
  lemma MissReleases(run: seq<State>, steps: seq<Step>, k: nat, t: nat)
    requires IsRun(run, steps) && k < |steps| && steps[k] == Run(t) && t < |run[k].threads|
    requires run[k].threads[t].op.CasMiss?
    ensures Spent(run, k + 1, run[k].threads[t].op.neu)
  {
    RunsInv(run, steps, k);
    assert StepAt(run, steps, k) && ThreadOk(run[k], t);
    Served(run[k], t, NewVal);
    Served(run[k], t, OldGuard);
  }

  /**
   `compare_and_swap`: the call takes the new value from the program with its first step, and gives it a guard with its
   last; in between it neither takes nor gives. If the result is `cur`, the count of the new value is in the storage
   since the exchange, and the one that the storage had on the old value is given back. Otherwise the new value is.
   */
  lemma CompareAndSwapHandsOver(run: seq<State>, steps: seq<Step>, i: nat, k: nat, t: nat, a: nat, cur: Ptr, neu: Ptr)
    returns (g: nat, p: Ptr, e: nat)
    requires IsRun(run, steps) && CasCall(run, steps, i, k, t, a, cur, neu) && k < |steps|
    requires Actor(run[k], steps[k]) == t
    requires t < |run[k + 1].threads| && run[k + 1].threads[t].op.Ready?
    ensures Takes(run[i], run[i + 1], steps[i].c) && GivesNothing(run, steps, i + 1, k, t)
    ensures Gives(run[k], run[k + 1], g, p) && Has(run, k + 1, g, p)
    ensures |run[k + 1].events| == |run[k].events| + 1 && run[k + 1].events[|run[k].events|].CasReturned?
    ensures run[k + 1].events[|run[k].events|].ptr == p
    ensures p == cur ==>
      && i < e < k && AddsOver(run, steps, e, t, a, cur, Write(neu, Some(cur)))
      && run[e + 1].storages[a].claim == steps[i].c && Spent(run, k + 1, run[e].storages[a].claim)
    ensures p != cur ==> Spent(run, k + 1, steps[i].c)
  {
    StepsAreAccounted(run, steps, i);
    CasGivesNothing(run, steps, i, k, t, a, cur, neu);
    e := CasCallSoFar(run, steps, i, k, t, a, cur, neu);
    RunProceeds(run, steps, k, t, a, cur, neu);
    assert Returns(run[k], run[k + 1], t, a, cur, neu);
    ReturnGives(run, steps, k, t);
    g, p := Result(run[k].threads[t]).value.0, Result(run[k].threads[t]).value.1;
    if run[k].threads[t].op.Pay? { ValIsOwned(run, steps, k, t); } else { MissReleases(run, steps, k, t); }
    CasGone(run, steps, k, t);
  }

  lemma CasGone(run: seq<State>, steps: seq<Step>, k: nat, t: nat)
    requires IsRun(run, steps) && k < |run| && t < |run[k].threads|
    ensures var o := run[k].threads[t].op; o.Pay? && o.after.RetGuard? ==> o.gone == o.after.cur
  {
    RunsInv(run, steps, k);
    assert WriterOk(run[k], t);
  }

  // ---- load ----

  /** A load for the program leaves or stays where it is with each step. */
  lemma LoadStays(run: seq<State>, steps: seq<Step>, j: nat, t: nat)
    requires IsRun(run, steps) && j < |steps| && InCalls(run, j, j + 1, t) && run[j].threads[t].op.UserLoad?
    ensures run[j + 1].threads[t].op.UserLoad? && run[j].threads[t].load.Loading? && Untouched(run, steps, j, t)
    ensures run[j + 1].threads[t].load.Loading?
  {
    RunsInv(run, steps, j);
    assert StepAt(run, steps, j) && ThreadOk(run[j], t);
    StaysUntouched(run, steps, j, t);
    if Actor(run[j], steps[j]) != t { OtherActor(run[j], steps[j], t); }
    else if !run[j].threads[t].load.pc.Done? { LoadStepMoves(run[j], t); }
  }

  lemma {:induction false} LoadGoesOn(run: seq<State>, steps: seq<Step>, b: nat, k: nat, t: nat)
    requires IsRun(run, steps) && b <= k < |steps| && InCalls(run, b, k, t) && run[b].threads[t].op.UserLoad?
    requires run[b].threads[t].load.Loading?
    ensures GivesNothing(run, steps, b, k, t)
    ensures forall j: nat :: b <= j <= k ==> run[j].threads[t].op.UserLoad? && run[j].threads[t].load.Loading?
    decreases k
  {
    if b < k {
      LoadGoesOn(run, steps, b, k - 1, t);
      LoadStays(run, steps, k - 1, t);
    }
  }

  /**
   `load`: the program gets a guard with the last step of the call, and neither gets nor loses anything before. The
   guard's object is alive, and was in the storage at a state of the call.
   */
  lemma LoadHandsOver(run: seq<State>, steps: seq<Step>, i: nat, k: nat, t: nat, a: nat)
    returns (g: nat, p: Ptr, m: nat)
    requires IsRun(run, steps) && i < k < |steps| && steps[i] == LoadFrom(t, a) && StepAt(run, steps, i)
    requires InCalls(run, i + 1, k, t) && Actor(run[k], steps[k]) == t
    requires t < |run[k + 1].threads| && run[k + 1].threads[t].op.Ready?
    ensures GivesNothing(run, steps, i, k, t)
    ensures Gives(run[k], run[k + 1], g, p) && Has(run, k + 1, g, p)
    ensures i < m <= k && a < |run[m].storages| && run[m].storages[a].ptr == p
  {
    StepsAreAccounted(run, steps, i);
    LoadGoesOn(run, steps, i + 1, k, t);
    ReturnGives(run, steps, k, t);
    g, p := Result(run[k].threads[t]).value.0, Result(run[k].threads[t]).value.1;
    FlightIsSteady(run, steps, t, i, k);
    m := LoadsAreLinearizable(run, steps, t, i, k);
  }
}
