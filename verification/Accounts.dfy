/**
 What each step takes from the program and gives to it. Together with the invariant, by which storages, control words
 and threads have just the claims they need, this leaves no claim unaccounted for.
 */
module Accounts {
  import opened Ledger
  import opened Machine
  import opened Ownership
  import opened Protocol
  import opened Invariant
  import opened Handles

  /** The live claims of the program: its handles and guards. */
  ghost function Hand(s: State): set<nat> {
    set c: nat | c < |s.book.claims| && s.book.claims[c].holder.User? && !s.book.claims[c].kind.Spent?
  }

  /** The program gets claim `g` on `p`, as a handle or a guard, and nothing else. */
  ghost predicate Gives(s: State, s': State, g: nat, p: Ptr) {
    && g !in Hand(s) && Hand(s') == Hand(s) + {g}
    && s'.book.claims[g].ptr == p && Fits(s'.book.claims[g].kind, WGuard)
  }

  /** What thread `t` owes to the program if it returns with its next step: the claim, and its object. */
  ghost function Result(th: ThreadState): Option<(nat, Ptr)> {
    if th.load.Loading? then
      if th.op.UserLoad? && th.load.pc.Done? then Some((th.load.pc.c, th.load.pc.ptr)) else None
    else match th.op
      case Pay(_, gone, _, val, RetOld(_), PayRet) => Some((val, gone))
      case Pay(_, gone, _, _, RetGuard(guard, _, _), PayRet) => Some((guard, gone))
      case CasMiss(_, _, _, _, guard, gptr, _) => Some((guard, gptr))
      case _ => None
  }

  /** A step of thread `t` gives the program the result of its call, or nothing. */
  ghost predicate GivesResult(s: State, s': State, t: nat)
    requires t < |s.threads|
  {
    match Result(s.threads[t])
    case Some((g, p)) => Gives(s, s', g, p)
    case None => Hand(s') == Hand(s)
  }

  lemma QuietGives(s: State, s': State)
    requires |s.book.claims| <= |s'.book.claims|
    requires forall c: nat :: c < |s.book.claims| && s.book.claims[c].holder.User? ==> ClaimKept(s, s', c)
    requires forall c: nat :: c < |s'.book.claims| && s'.book.claims[c].holder.User? ==> OfProgram(s, c)
    ensures Hand(s') == Hand(s)
  {
    forall c: nat | c in Hand(s') ensures c in Hand(s) { assert ClaimKept(s, s', c); }
    forall c: nat | c in Hand(s) ensures c in Hand(s') { assert ClaimKept(s, s', c); }
  }

  lemma OneGives(s: State, s': State, g: nat, p: Ptr)
    requires |s.book.claims| <= |s'.book.claims| && g < |s'.book.claims| && !OfProgram(s, g)
    requires forall c: nat :: c < |s.book.claims| && s.book.claims[c].holder.User? ==> ClaimKept(s, s', c)
    requires forall c: nat :: c < |s'.book.claims| && s'.book.claims[c].holder.User? && c != g ==> OfProgram(s, c)
    requires s'.book.claims[g].holder.User? && s'.book.claims[g].ptr == p && Fits(s'.book.claims[g].kind, WGuard)
    ensures Gives(s, s', g, p)
  {
    forall c: nat | c in Hand(s') && c != g ensures c in Hand(s) { assert ClaimKept(s, s', c); }
    forall c: nat | c in Hand(s) ensures c in Hand(s') { assert ClaimKept(s, s', c); }
  }

  lemma LoadGives(s: State, t: nat)
    requires AllHeld(s) && CanLoad(s, t) && ShapeOk(s, t)
    ensures GivesResult(s, RunLoad(s, t), t)
  {
    var s', th := RunLoad(s, t), s.threads[t];
    forall c: nat | OfProgram(s, c) ensures ClaimKept(s, s', c) { LoadClaimKept(s, t, c); }
    if th.load.pc.Done? {
      Served(s, t, LoadClaim);
      if th.op.UserLoad? { OneGives(s, s', th.load.pc.c, th.load.pc.ptr); } else { QuietGives(s, s'); }
    } else {
      QuietGives(s, s');
    }
  }

  lemma PayGives(s: State, t: nat)
    requires AllHeld(s) && CanPay(s, t) && s.threads[t].load.NoLoad?
    ensures GivesResult(s, RunPay(s, t), t)
  {
    var s', o := RunPay(s, t), s.threads[t].op;
    forall c: nat | OfProgram(s, c) ensures ClaimKept(s, s', c) { PayClaimKept(s, t, c); }
    Served(s, t, Val);
    if o.after.RetGuard? { Served(s, t, OldGuard); }
    if o.pc.PayRet? && !o.after.Destroy? {
      OneGives(s, s', if o.after.RetOld? then o.val else o.after.guard, o.gone);
    } else {
      QuietGives(s, s');
    }
  }

  lemma CasGives(s: State, t: nat)
    requires AllHeld(s) && CanCas(s, t) && s.threads[t].load.NoLoad?
    ensures GivesResult(s, RunCas(s, t), t)
  {
    var s', o := RunCas(s, t), s.threads[t].op;
    forall c: nat | OfProgram(s, c) ensures ClaimKept(s, s', c) { CasClaimKept(s, t, c); }
    Served(s, t, OldGuard);
    Served(s, t, NewVal);
    if o.CasMiss? { OneGives(s, s', o.guard, o.gptr); } else { QuietGives(s, s'); }
  }

  lemma RunGives(s: State, t: nat)
    requires Inv(s) && CanRun(s, t)
    ensures GivesResult(s, RunThread(s, t), t)
  {
    assert ThreadOk(s, t);
    if s.threads[t].load.Loading? { LoadGives(s, t); }
    else if Unattached(s.threads[t].op) {}
    else if s.threads[t].op.Pay? { PayGives(s, t); }
    else { CasGives(s, t); }
  }

  // ---- Every step ----

  /** The program loses claim `c` and nothing else. */
  ghost predicate Takes(s: State, s': State, c: nat) {
    c in Hand(s) && Hand(s') == Hand(s) - {c}
  }

  /** The program gets an owned claim on `p` that was not there before. */
  ghost predicate GivesNew(s: State, s': State, p: Ptr) {
    Gives(s, s', |s.book.claims|, p) && s'.book.claims[|s.book.claims|].kind.Owned?
  }

  /** The count of `p` changes by `d`; no other does, and no slot. */
  ghost predicate CountChanges(b: Book, b': Book, p: Ptr, d: int) {
    p < |b.cnt| && b'.cnt == b.cnt[p := b.cnt[p] + d] && b'.slots == b.slots
  }

  /** No count changes, and of the slots only `x` does, which is empty. */
  ghost predicate SlotEmptied(b: Book, b': Book, x: SlotId) {
    && b'.cnt == b.cnt && x in b.slots && x in b'.slots && b'.slots[x].val.None?
    && b'.slots == b.slots[x := b'.slots[x]]
  }

  /** All other claims of the program are as before. */
  ghost predicate OthersKept(s: State, s': State, c: nat) {
    forall d: nat :: d in Hand(s) && d != c ==> d in Hand(s') && ClaimKept(s, s', d)
  }

  /** The first step of dropping guard `c`: its debt is returned, or the guard has a count of its own. */
  ghost predicate DebtReturned(s: State, s': State, c: nat)
    requires c < |s.book.claims| && s.book.claims[c].kind.Debt?
  {
    var cl := s.book.claims[c];
    if cl.kind.at in s.book.slots && s.book.slots[cl.kind.at].val == Some(cl.ptr) then
      Takes(s, s', c) && SlotEmptied(s.book, s'.book, cl.kind.at)
    else
      && Hand(s') == Hand(s) && s'.book.cnt == s.book.cnt && s'.book.slots == s.book.slots
      && c < |s'.book.claims| && s'.book.claims[c] == cl.(kind := Owned)
  }

  ghost predicate Accounted(s: State, step: Step, s': State) {
    match step
    case Run(t) => t < |s.threads| && GivesResult(s, s', t)
    case SpuriousFail(_) => Hand(s') == Hand(s)
    case LoadFrom(_, _) => Hand(s') == Hand(s)
    case TakeOut(_, _, _) => Hand(s') == Hand(s)
    case SwapIn(_, _, c) => Takes(s, s', c)
    case CompareAndSwap(_, _, _, c) => Takes(s, s', c)
    case NewStorage(c, _) => Takes(s, s', c)
    case NewObject => GivesNew(s, s', |s.book.cnt|) && s'.book.cnt == s.book.cnt + [1] && s'.book.slots == s.book.slots
    case Clone(c) =>
      c in Hand(s) && GivesNew(s, s', s.book.claims[c].ptr) && CountChanges(s.book, s'.book, s.book.claims[c].ptr, 1)
    case ReturnDebt(c) => c in Hand(s) && s.book.claims[c].kind.Debt? && DebtReturned(s, s', c) && OthersKept(s, s', c)
    case Release(c) =>
      Takes(s, s', c) && CountChanges(s.book, s'.book, s.book.claims[c].ptr, -1) && OthersKept(s, s', c)
  }

  lemma ProgramAccounted(s: State, step: Step)
    requires Enabled(s, step) && OfUser(step)
    ensures Accounted(s, step, Next(s, step))
  {
    var s' := Next(s, step);
    if step.NewObject? || step.Clone? {
      assert Hand(s') == Hand(s) + {|s.book.claims|};
    } else if step.NewStorage? || step.Release? {
      assert Hand(s') == Hand(s) - {step.c};
    } else {
      var c := step.c;
      if Pays(s.book, s.book.claims[c].kind.at, s.book.claims[c].ptr) {
        assert Hand(s') == Hand(s) - {c};
      } else {
        assert Hand(s') == Hand(s);
      }
    }
  }

  lemma SwapAccounted(s: State, t: nat, a: nat, c: nat)
    requires AllHeld(s) && Enabled(s, SwapIn(t, a, c))
    ensures Takes(s, Next(s, SwapIn(t, a, c)), c)
  {
    assert Holds(s.book.claims, Cell(a), Expecting(s)(Cell(a)).value);
    assert Hand(Next(s, SwapIn(t, a, c))) == Hand(s) - {c};
  }

  lemma BeginAccounted(s: State, step: Step)
    requires AllHeld(s) && Enabled(s, step) && Begins(step)
    ensures Accounted(s, step, Next(s, step))
  {
    var s' := Next(s, step);
    match step
    case LoadFrom(_, _) =>
    case SwapIn(t, a, c) => SwapAccounted(s, t, a, c);
    case CompareAndSwap(_, _, _, c) => assert Hand(s') == Hand(s) - {c};
    case TakeOut(_, a, _) =>
      assert Holds(s.book.claims, Cell(a), Expecting(s)(Cell(a)).value);
      assert Hand(s') == Hand(s);
  }

  /** Each step changes what the program has by just what it should. */
  lemma StepAccounted(s: State, step: Step)
    requires Inv(s) && Enabled(s, step)
    ensures Accounted(s, step, Next(s, step))
  {
    if step.Run? { RunGives(s, step.t); }
    else if Begins(step) { BeginAccounted(s, step); }
    else if OfUser(step) { ProgramAccounted(s, step); }
  }

  lemma StepsAreAccounted(run: seq<State>, steps: seq<Step>, j: nat)
    requires IsRun(run, steps) && j < |steps|
    ensures Accounted(run[j], steps[j], run[j + 1])
  {
    RunsInv(run, steps, j);
    assert StepAt(run, steps, j);
    StepAccounted(run[j], steps[j]);
  }

  /**
   The drop of guard `c`: step `i` returns its debt. If the debt is still there, that is all: the slot is empty and no
   count changes. If a writer has paid it, the drop goes on with step `j`, which takes one off the count of the object.
   Either way the guard is spent, and both steps leave all else that the program has as it is.
   */
  lemma GuardsAreDropped(run: seq<State>, steps: seq<Step>, i: nat, j: nat, c: nat)
    requires IsRun(run, steps) && i <= j < |steps| && steps[i] == ReturnDebt(c)
    requires c < |run[i].book.claims| && run[i].book.claims[c].kind.Debt?
    requires var cl := run[i].book.claims[c];
      if cl.kind.at in run[i].book.slots && run[i].book.slots[cl.kind.at].val == Some(cl.ptr) then j == i
      else i < j && steps[j] == Release(c) && forall n: nat :: i < n < j ==> !Names(steps[n], c)
    ensures c < |run[j + 1].book.claims| && run[j + 1].book.claims[c].kind.Spent?
    ensures Hand(run[j + 1]) == Hand(run[j]) - {c}
    ensures OthersKept(run[i], run[i + 1], c) && OthersKept(run[j], run[j + 1], c)
    ensures
      if i == j then SlotEmptied(run[i].book, run[i + 1].book, run[i].book.claims[c].kind.at)
      else
        && run[i + 1].book.cnt == run[i].book.cnt && run[i + 1].book.slots == run[i].book.slots
        && CountChanges(run[j].book, run[j + 1].book, run[i].book.claims[c].ptr, -1)
  {
    StepsAreAccounted(run, steps, i);
    StepsAreAccounted(run, steps, j);
    assert StepAt(run, steps, i) && StepAt(run, steps, j);
    if i < j {
      forall n: nat | i + 1 <= n < j ensures StillHeld(run, n, c) { RunStillHeld(run, steps, n, c); }
      ClaimStays(run, i + 1, j, c);
    }
  }
}
