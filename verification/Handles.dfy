/**
 What the program holds between operations. A handle or guard stays as it is, with its object alive, until a step names
 it: this is what lets a cache take equality of pointers for freshness.
 */
module Handles {
  import opened Ledger
  import opened Machine
  import opened Ownership
  import opened Invariant
  import Safety
  import Linearizability

  /** The step takes claim `c` away from the program, or changes it. */
  predicate Names(step: Step, c: nat) {
    (step.SwapIn? || step.CompareAndSwap? || step.NewStorage? || step.ReturnDebt? || step.Release?) && step.c == c
  }

  ghost predicate OfProgram(s: State, c: nat) {
    c < |s.book.claims| && s.book.claims[c].holder.User?
  }

  ghost predicate ClaimKept(s: State, s': State, c: nat) {
    c < |s.book.claims| && c < |s'.book.claims| && s'.book.claims[c] == s.book.claims[c]
  }

  lemma LoadClaimKept(s: State, t: nat, c: nat)
    requires AllHeld(s) && CanLoad(s, t) && OfProgram(s, c)
    ensures ClaimKept(s, RunLoad(s, t), c)
  {
    var th := s.threads[t];
    if ThreadExpects(th, t, LoadClaim).Some? { Served(s, t, LoadClaim); }
    if ThreadExpects(th, t, LoadOwned).Some? { Served(s, t, LoadOwned); }
    if ThreadExpects(th, t, LoadRepl).Some? { Served(s, t, LoadRepl); }
    if s.nodes[t].control.Repl? { assert Holds(s.book.claims, Word(t), Expecting(s)(Word(t)).value); }
  }

  lemma PayClaimKept(s: State, t: nat, c: nat)
    requires AllHeld(s) && CanPay(s, t) && OfProgram(s, c)
    ensures ClaimKept(s, RunPay(s, t), c)
  {
    var th := s.threads[t];
    Served(s, t, Val);
    if ThreadExpects(th, t, Prepaid).Some? { Served(s, t, Prepaid); }
    if ThreadExpects(th, t, OldGuard).Some? { Served(s, t, OldGuard); }
    if ThreadExpects(th, t, Replacement).Some? { Served(s, t, Replacement); }
  }

  lemma CasClaimKept(s: State, t: nat, c: nat)
    requires AllHeld(s) && CanCas(s, t) && OfProgram(s, c)
    ensures ClaimKept(s, RunCas(s, t), c)
  {
    Served(s, t, OldGuard);
    Served(s, t, NewVal);
    var a := s.threads[t].op.a;
    if s.storages[a].alive { assert Holds(s.book.claims, Cell(a), Expecting(s)(Cell(a)).value); }
  }

  lemma RunClaimKept(s: State, t: nat, c: nat)
    requires AllHeld(s) && CanRun(s, t) && OfProgram(s, c)
    ensures ClaimKept(s, RunThread(s, t), c)
  {
    if s.threads[t].load.Loading? { LoadClaimKept(s, t, c); }
    else if Unattached(s.threads[t].op) {}
    else if s.threads[t].op.Pay? { PayClaimKept(s, t, c); }
    else { CasClaimKept(s, t, c); }
  }

  lemma StepClaimKept(s: State, step: Step, c: nat)
    requires AllHeld(s) && Enabled(s, step) && OfProgram(s, c) && !Names(step, c)
    ensures ClaimKept(s, Next(s, step), c)
  {
    match step
    case Run(t) => RunClaimKept(s, t, c);
    case SwapIn(_, a, _) => assert Holds(s.book.claims, Cell(a), Expecting(s)(Cell(a)).value);
    case TakeOut(_, a, _) => assert Holds(s.book.claims, Cell(a), Expecting(s)(Cell(a)).value);
    case _ =>
  }

  /** If the program holds claim `c` in state `n`, it does so in the next. */
  ghost predicate StillHeld(run: seq<State>, n: nat, c: nat) {
    n + 1 < |run| && (OfProgram(run[n], c) ==> ClaimKept(run[n], run[n + 1], c))
  }

  lemma RunStillHeld(run: seq<State>, steps: seq<Step>, n: nat, c: nat)
    requires IsRun(run, steps) && n < |steps| && !Names(steps[n], c)
    ensures StillHeld(run, n, c)
  {
    RunsInv(run, steps, n);
    assert StepAt(run, steps, n);
    if OfProgram(run[n], c) { StepClaimKept(run[n], steps[n], c); }
  }

  lemma {:induction false} ClaimStays(run: seq<State>, i: nat, j: nat, c: nat)
    requires i <= j < |run| && OfProgram(run[i], c) && forall n: nat :: i <= n < j ==> StillHeld(run, n, c)
    ensures ClaimKept(run[i], run[j], c)
    decreases j
  {
    if i < j {
      ClaimStays(run, i, j - 1, c);
      assert StillHeld(run, j - 1, c);
    }
  }

  /** What the program owns is there, unchanged and alive, as long as no step names it. */
  lemma HandlesStay(run: seq<State>, steps: seq<Step>, i: nat, j: nat, c: nat)
    requires IsRun(run, steps) && i <= j < |run| && UserOwns(run[i], c)
    requires forall n: nat :: i <= n < j ==> !Names(steps[n], c)
    ensures UserOwns(run[j], c) && run[j].book.claims[c] == run[i].book.claims[c]
    ensures run[j].book.cnt[run[i].book.claims[c].ptr] >= 1
  {
    forall n: nat | i <= n < j ensures StillHeld(run, n, c) { RunStillHeld(run, steps, n, c); }
    ClaimStays(run, i, j, c);
    RunsInv(run, steps, j);
    Safety.ReachedIsAlive(run[j], c);
  }

  // ---- cache::Cache ----

  /** Thread `t` begins a load from `a` with step `j`; in state `k` it is done. */
  ghost predicate Reloads(run: seq<State>, j: nat, k: nat, t: nat, a: nat) {
    && Linearizability.InFlight(run, t, j, k) && run[k].threads[t].load.a == a && run[k].threads[t].load.pc.Done?
  }

  /**
   `Cache::load` from state `i` to state `k`, with claim `c` as the cached copy, which the cache keeps until then. In
   state `q` it compares the pointer of the copy with that in the storage; if they differ, a load that begins with step
   `j` gives the result. Either way the result was the content of the storage during the call, and at no time the object
   of the copy had lost its last count, so an equal pointer has meant the same object.
   */
  lemma CacheLoadIsFresh(run: seq<State>, steps: seq<Step>, i: nat, q: nat, j: nat, k: nat, t: nat, a: nat, c: nat)
    returns (p: Ptr, m: nat)
    requires IsRun(run, steps) && i <= q <= j <= k < |run| && UserOwns(run[i], c) && a < |run[q].storages|
    requires forall n: nat :: i <= n < k ==> !Names(steps[n], c)
    requires run[q].storages[a].ptr != run[i].book.claims[c].ptr ==> Reloads(run, j, k, t, a)
    ensures i <= m <= k && a < |run[m].storages| && run[m].storages[a].ptr == p
    ensures p == if run[q].storages[a].ptr == run[i].book.claims[c].ptr then run[i].book.claims[c].ptr
      else run[k].threads[t].load.pc.ptr
    ensures forall n: nat :: i <= n <= k ==> UserOwns(run[n], c) && run[n].book.claims[c] == run[i].book.claims[c]
    ensures forall n: nat :: i <= n <= k ==>
      run[i].book.claims[c].ptr < |run[n].book.cnt| && run[n].book.cnt[run[i].book.claims[c].ptr] >= 1
  {
    forall n: nat | i <= n <= k
      ensures UserOwns(run[n], c) && run[n].book.claims[c] == run[i].book.claims[c]
      ensures run[n].book.cnt[run[i].book.claims[c].ptr] >= 1
    {
      HandlesStay(run, steps, i, n, c);
    }
    p, m := run[q].storages[a].ptr, q;
    if p != run[i].book.claims[c].ptr {
      p := run[k].threads[t].load.pc.ptr;
      m := Linearizability.LoadsAreLinearizable(run, steps, t, j, k);
    }
  }
}
