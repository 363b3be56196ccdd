/**
 Exchanges over whole runs: `swap` and `compare_and_swap` take effect in one step of their own between call and
 return, distinct exchanges have distinct entries in the log of their storage, and a failed attempt of
 `compare_and_swap` is another thread's doing.
 */
module Exchanges {
  import opened Ledger
  import opened Machine
  import opened Ownership
  import opened Protocol
  import opened Backing
  import opened History
  import opened Invariant
  import opened Linearizability

  // ---- Distinct exchanges have distinct entries ----

  predicate PutsIn(after: After) {
    (after.RetOld? && after.put.Some?) || after.RetGuard?
  }

  /** Thread `t` has replaced entry `at` of storage `a` and has yet to return. */
  ghost predicate Pending(s: State, t: nat, a: nat, at: nat) {
    && t < |s.threads| && s.threads[t].op.Pay? && PutsIn(s.threads[t].op.after)
    && s.threads[t].op.a == a && s.threads[t].op.at == at
  }

  /** The call of event `i` has returned and had replaced entry `at` of storage `a`. */
  ghost predicate Returned(s: State, i: nat, a: nat, at: nat) {
    && i < |s.events|
    && match s.events[i]
       case SwapReturned(_, b, k, _, put) => put.Some? && b == a && k == at
       case CasReturned(_, b, _, _, _, over) => b == a && over == Some(at)
       case Loaded(_, _, _, _, _, _) => false
  }

  ghost predicate EntriesApart(s: State) {
    && (forall t: nat, u: nat, a: nat, at: nat :: Pending(s, t, a, at) && Pending(s, u, a, at) ==> t == u)
    && (forall i: nat, j: nat, a: nat, at: nat :: Returned(s, i, a, at) && Returned(s, j, a, at) ==> i == j)
    && (forall t: nat, i: nat, a: nat, at: nat :: Pending(s, t, a, at) ==> !Returned(s, i, a, at))
  }

  /** Whatever has been replaced is not the newest entry. */
  lemma PendingIsOld(s: State, t: nat, a: nat, at: nat)
    requires Inv(s) && Pending(s, t, a, at)
    ensures a < |s.storages| && at + 1 < |s.storages[a].log|
  {
    assert WriterOk(s, t);
  }

  lemma ReturnedIsOld(s: State, i: nat, a: nat, at: nat)
    requires Inv(s) && Returned(s, i, a, at)
    ensures a < |s.storages| && at + 1 < |s.storages[a].log|
  {
    assert EventOk(s, s.events[i]);
  }

  /** What a step of thread `t` may do to entries: replace the newest, or return what it has replaced. */
  ghost predicate Credits(s: State, s': State, t: nat) {
    && SameThreads(s, s', t)
    && (forall a: nat, at: nat :: Pending(s', t, a, at) ==>
      Pending(s, t, a, at) || (a < |s.storages| && at + 1 == |s.storages[a].log|))
    && s.events <= s'.events && |s'.events| <= |s.events| + 1
    && (forall a: nat, at: nat :: Returned(s', |s.events|, a, at) ==> Pending(s, t, a, at) && !Pending(s', t, a, at))
  }

  lemma CreditsKeep(s: State, s': State, t: nat)
    requires Inv(s) && EntriesApart(s) && Credits(s, s', t)
    ensures EntriesApart(s')
  {
    forall u: nat, a: nat, at: nat | Pending(s', u, a, at) && Pending(s', t, a, at) ensures u == t {
      if u != t {
        assert Pending(s, u, a, at);
        PendingIsOld(s, u, a, at);
      }
    }
    forall u: nat, v: nat, a: nat, at: nat | Pending(s', u, a, at) && Pending(s', v, a, at) ensures u == v {
      assert u != t ==> Pending(s, u, a, at);
      assert v != t ==> Pending(s, v, a, at);
    }
    forall i: nat, j: nat, a: nat, at: nat | Returned(s', i, a, at) && Returned(s', j, a, at) ensures i == j {
      assert i < |s.events| ==> Returned(s, i, a, at);
      assert j < |s.events| ==> Returned(s, j, a, at);
    }
    forall u: nat, i: nat, a: nat, at: nat | Pending(s', u, a, at) ensures !Returned(s', i, a, at) {
      assert u != t ==> Pending(s, u, a, at);
      if i < |s.events| && Returned(s, i, a, at) { ReturnedIsOld(s, i, a, at); }
      assert i < |s.events| && Returned(s', i, a, at) ==> Returned(s, i, a, at);
    }
  }

  lemma LoadCredits(s: State, t: nat)
    requires Sane(s) && CanLoad(s, t)
    ensures Credits(s, RunLoad(s, t), t)
  {
    LoadStepFrame(s, t);
    if !s.threads[t].load.pc.Done? { LoadStepMoves(s, t); }
  }

  lemma PayCredits(s: State, t: nat)
    requires CanPay(s, t)
    ensures Credits(s, RunPay(s, t), t)
  {
    PayThreads(s, t);
  }

  lemma CasCredits(s: State, t: nat)
    requires CanCas(s, t)
    ensures Credits(s, RunCas(s, t), t)
  {
  }

  lemma RunCredits(s: State, t: nat)
    requires Sane(s) && CanRun(s, t)
    ensures Credits(s, RunThread(s, t), t)
  {
    if s.threads[t].load.Loading? { LoadCredits(s, t); }
    else if Unattached(s.threads[t].op) {}
    else if s.threads[t].op.Pay? { PayCredits(s, t); }
    else { CasCredits(s, t); }
  }

  /** Whose step it is; steps of the program around belong to nobody. */
  function Actor(s: State, step: Step): nat {
    if step.Run? || step.SpuriousFail? || Begins(step) then step.t else |s.threads|
  }

  lemma StepCredits(s: State, step: Step)
    requires Sane(s) && Enabled(s, step)
    ensures Credits(s, Next(s, step), Actor(s, step))
  {
    if step.Run? { RunCredits(s, step.t); }
  }

  lemma {:induction false} RunsApart(run: seq<State>, steps: seq<Step>, n: nat)
    requires IsRun(run, steps) && n < |run|
    ensures EntriesApart(run[n])
  {
    if n > 0 {
      RunsApart(run, steps, n - 1);
      RunsInv(run, steps, n - 1);
      assert StepAt(run, steps, n - 1);
      StepCredits(run[n - 1], steps[n - 1]);
      CreditsKeep(run[n - 1], run[n], Actor(run[n - 1], steps[n - 1]));
    }
  }

  /**
   In every state, no two exchanges have the same entry: neither two calls that have returned, nor two that are on
   their way, nor one of each. So no call takes credit for what another has stored.
   */
  lemma ExchangesAreDistinct(run: seq<State>, steps: seq<Step>, n: nat, a: nat, at: nat)
    requires IsRun(run, steps) && n < |run|
    ensures forall t: nat, u: nat :: Pending(run[n], t, a, at) && Pending(run[n], u, a, at) ==> t == u
    ensures forall i: nat, j: nat :: Returned(run[n], i, a, at) && Returned(run[n], j, a, at) ==> i == j
    ensures forall t: nat, i: nat :: Pending(run[n], t, a, at) ==> !Returned(run[n], i, a, at)
  {
    RunsApart(run, steps, n);
  }

  // ---- One step of a call ----

  /** Inside `compare_and_swap` on storage `a`, before or after its exchange. */
  ghost predicate InCall(o: Op, a: nat, cur: Ptr, neu: Ptr) {
    || ((o.CasLoad? || CasOp(o)) && o.a == a && o.cur == cur && o.nptr == neu)
    || (o.Pay? && o.a == a && o.after.RetGuard? && o.after.cur == cur && o.after.neu == neu)
  }

  /** The load of the present attempt reads entry `n` or later. */
  ghost predicate ReadsFrom(th: ThreadState, n: nat) {
    && (th.op.CasLoad? ==> th.load.Loading? && th.load.start >= n)
    && (th.op.CasTry? || th.op.CasMiss? ==> th.op.lin >= n)
  }

  /** The call goes on: nothing is stored, and it has exchanged if it had. */
  ghost predicate GoesOn(s: State, s': State, t: nat, a: nat, cur: Ptr, neu: Ptr)
    requires t < |s.threads| && t < |s'.threads|
  {
    && InCall(s'.threads[t].op, a, cur, neu) && (s'.threads[t].op.Pay? <==> s.threads[t].op.Pay?)
    && s'.storages == s.storages
    && (if s.threads[t].op.Pay? then
          s'.threads[t].op.at == s.threads[t].op.at && s'.threads[t].op.val == s.threads[t].op.val
        else s.threads[t].op.CasLoad? || CasOp(s.threads[t].op) ==> s'.threads[t].op.neu == s.threads[t].op.neu)
    && (a < |s.storages| ==>
      forall n: nat :: n < |s.storages[a].log| && ReadsFrom(s.threads[t], n) ==> ReadsFrom(s'.threads[t], n))
  }

  /** The exchange: the new value goes in over `cur`. */
  ghost predicate PutsNew(s: State, s': State, t: nat, a: nat, cur: Ptr, neu: Ptr)
    requires t < |s.threads| && t < |s'.threads|
  {
    && InCall(s'.threads[t].op, a, cur, neu) && s'.threads[t].op.Pay? && s.threads[t].op.CasTry?
    && a < |s.storages| && a < |s'.storages| && s.storages[a].ptr == cur
    && s'.threads[t].op.at + 1 == |s.storages[a].log|
    && s'.threads[t].op.val == s.storages[a].claim && s'.storages[a].claim == s.threads[t].op.neu
    && s'.storages[a].log == s.storages[a].log + [Write(neu, Some(cur))]
  }

  /** The return: with `cur` after an exchange, with what the last load read otherwise. */
  ghost predicate Returns(s: State, s': State, t: nat, a: nat, cur: Ptr, neu: Ptr)
    requires t < |s.threads| && t < |s'.threads|
  {
    var o := s.threads[t].op;
    && s'.threads[t].op.Ready? && s'.threads[t].load.NoLoad? && s'.storages == s.storages
    && (if o.Pay? then s'.events == s.events + [CasReturned(t, a, cur, neu, cur, Some(o.at))]
        else o.CasMiss? && o.gptr != cur && s'.events == s.events + [CasReturned(t, a, cur, neu, o.gptr, None)])
  }

  ghost predicate CallStep(s: State, s': State, t: nat, a: nat, cur: Ptr, neu: Ptr) {
    && t < |s.threads| && t < |s'.threads|
    && (GoesOn(s, s', t, a, cur, neu) || PutsNew(s, s', t, a, cur, neu) || Returns(s, s', t, a, cur, neu))
  }

  lemma LoadCallStep(s: State, t: nat, a: nat, cur: Ptr, neu: Ptr)
    requires Sane(s) && CanLoad(s, t) && ThreadOk(s, t) && InCall(s.threads[t].op, a, cur, neu)
    ensures CallStep(s, RunLoad(s, t), t, a, cur, neu)
  {
    if !s.threads[t].load.pc.Done? { LoadStepMoves(s, t); }
    assert GoesOn(s, RunLoad(s, t), t, a, cur, neu);
  }

  lemma PayCallStep(s: State, t: nat, a: nat, cur: Ptr, neu: Ptr)
    requires AllHeld(s) && CanPay(s, t) && WriterOk(s, t) && s.threads[t].load.NoLoad?
    requires InCall(s.threads[t].op, a, cur, neu)
    ensures CallStep(s, RunPay(s, t), t, a, cur, neu)
  {
    Served(s, t, OldGuard);
    PayThreads(s, t);
    if s.threads[t].op.pc.PayRet? {
      assert Returns(s, RunPay(s, t), t, a, cur, neu);
    } else {
      assert GoesOn(s, RunPay(s, t), t, a, cur, neu);
    }
  }

  lemma CasCallStep(s: State, t: nat, a: nat, cur: Ptr, neu: Ptr)
    requires Sane(s) && AllHeld(s) && CanCas(s, t) && WriterOk(s, t)
    requires s.threads[t].load.NoLoad? && InCall(s.threads[t].op, a, cur, neu)
    ensures CallStep(s, RunCas(s, t), t, a, cur, neu)
  {
    var s', o := RunCas(s, t), s.threads[t].op;
    Served(s, t, OldGuard);
    CasStepFrame(s, t);
    if o.CasMiss? {
      assert Returns(s, s', t, a, cur, neu);
    } else if o.CasTry? && s.storages[a].ptr == cur {
      assert PutsNew(s, s', t, a, cur, neu);
    } else {
      assert GoesOn(s, s', t, a, cur, neu);
    }
  }

  lemma OwnCallStep(s: State, step: Step, t: nat, a: nat, cur: Ptr, neu: Ptr)
    requires Inv(s) && Enabled(s, step) && t < |s.threads| && InCall(s.threads[t].op, a, cur, neu)
    requires Actor(s, step) == t
    ensures CallStep(s, Next(s, step), t, a, cur, neu)
  {
    assert ThreadOk(s, t) && WriterOk(s, t);
    if step.SpuriousFail? || (s.threads[t].load.NoLoad? && Unattached(s.threads[t].op)) {
      assert GoesOn(s, Next(s, step), t, a, cur, neu);
    } else if s.threads[t].load.Loading? {
      LoadCallStep(s, t, a, cur, neu);
    } else if s.threads[t].op.Pay? {
      PayCallStep(s, t, a, cur, neu);
    } else {
      CasCallStep(s, t, a, cur, neu);
    }
  }

  /** Steps of others leave the thread where it is. */
  lemma OtherActor(s: State, step: Step, t: nat)
    requires Inv(s) && Enabled(s, step) && t < |s.threads| && Actor(s, step) != t
    ensures t < |Next(s, step).threads| && Next(s, step).threads[t] == s.threads[t]
  {
    if step.Run? { OtherThread(s, step.t, t); }
  }

  // ---- A whole call ----

  /** Step `j` is one of thread `t`, and adds to the log of storage `a`. */
  ghost predicate Adds(run: seq<State>, steps: seq<Step>, j: nat, t: nat, a: nat) {
    && |run| == |steps| + 1 && j < |steps| && Actor(run[j], steps[j]) == t
    && a < |run[j].storages| && a < |run[j + 1].storages| && |run[j].storages[a].log| < |run[j + 1].storages[a].log|
  }

  /** Step `j` of thread `t` puts entry `w` behind one with `p`. */
  ghost predicate AddsOver(run: seq<State>, steps: seq<Step>, j: nat, t: nat, a: nat, p: Ptr, w: Write) {
    && Adds(run, steps, j, t, a) && run[j].storages[a].ptr == p
    && run[j + 1].storages[a].log == run[j].storages[a].log + [w]
  }

  /** Of the steps from `i` to `k`, none of thread `t` but `e` adds to the log of `a`. */
  ghost predicate NoOther(run: seq<State>, steps: seq<Step>, i: nat, k: nat, t: nat, a: nat, e: nat) {
    forall j: nat :: i <= j < k && j != e ==> !Adds(run, steps, j, t, a)
  }

  /** Thread `t` is inside of calls in all states from `i` to `k`. */
  ghost predicate InCalls(run: seq<State>, i: nat, k: nat, t: nat) {
    k < |run| && forall j: nat :: i <= j <= k ==> t < |run[j].threads| && !run[j].threads[t].op.Ready?
  }

  /** Step `j` treats the call of thread `t` as it should. */
  ghost predicate Proceeds(run: seq<State>, steps: seq<Step>, j: nat, t: nat, a: nat, cur: Ptr, neu: Ptr) {
    && |run| == |steps| + 1 && j < |steps| && t < |run[j].threads| && t < |run[j + 1].threads|
    && (a < |run[j].storages| ==> a < |run[j + 1].storages| && run[j].storages[a].log <= run[j + 1].storages[a].log)
    && (InCall(run[j].threads[t].op, a, cur, neu) ==>
      if Actor(run[j], steps[j]) == t then CallStep(run[j], run[j + 1], t, a, cur, neu)
      else run[j + 1].threads[t] == run[j].threads[t])
  }

  lemma RunProceeds(run: seq<State>, steps: seq<Step>, j: nat, t: nat, a: nat, cur: Ptr, neu: Ptr)
    requires IsRun(run, steps) && j < |steps| && t < |run[j].threads|
    ensures Proceeds(run, steps, j, t, a, cur, neu)
  {
    RunsInv(run, steps, j);
    assert StepAt(run, steps, j);
    if a < |run[j].storages| { LogsExtend(run, steps, j, j + 1, a); }
    StepCredits(run[j], steps[j]);
    if InCall(run[j].threads[t].op, a, cur, neu) {
      if Actor(run[j], steps[j]) == t { OwnCallStep(run[j], steps[j], t, a, cur, neu); }
      else { OtherActor(run[j], steps[j], t); }
    }
  }

  /** The state of a `compare_and_swap` that is in flight since state `b`. */
  ghost predicate CallAt(run: seq<State>, steps: seq<Step>, b: nat, k: nat, t: nat, a: nat, cur: Ptr, neu: Ptr,
      n: nat, c: nat, e: nat) {
    && k < |run| && t < |run[k].threads| && a < |run[k].storages| && n < |run[k].storages[a].log|
    && InCall(run[k].threads[t].op, a, cur, neu) && ReadsFrom(run[k].threads[t], n)
    && NoOther(run, steps, b, k, t, a, e)
    && (if run[k].threads[t].op.Pay? then
          && b <= e < k && AddsOver(run, steps, e, t, a, cur, Write(neu, Some(cur)))
          && run[k].threads[t].op.at + 1 == |run[e].storages[a].log|
          && run[k].threads[t].op.val == run[e].storages[a].claim && run[e + 1].storages[a].claim == c
        else e == k && run[k].threads[t].op.neu == c)
  }

  lemma NextCallAt(run: seq<State>, steps: seq<Step>, b: nat, k: nat, t: nat, a: nat, cur: Ptr, neu: Ptr, n: nat,
      c: nat, d: nat)
    returns (e: nat)
    requires b <= k && CallAt(run, steps, b, k, t, a, cur, neu, n, c, d) && Proceeds(run, steps, k, t, a, cur, neu)
    requires !run[k + 1].threads[t].op.Ready?
    ensures CallAt(run, steps, b, k + 1, t, a, cur, neu, n, c, e)
  {
    e := if run[k].threads[t].op.Pay? then d else if run[k + 1].threads[t].op.Pay? then k else k + 1;
  }

  lemma {:induction false} CallChain(run: seq<State>, steps: seq<Step>, b: nat, k: nat, t: nat, a: nat, cur: Ptr,
      neu: Ptr, n: nat, c: nat)
    returns (e: nat)
    requires b <= k && InCalls(run, b, k, t) && CallAt(run, steps, b, b, t, a, cur, neu, n, c, b)
    requires forall j: nat :: b <= j < k ==> Proceeds(run, steps, j, t, a, cur, neu)
    ensures CallAt(run, steps, b, k, t, a, cur, neu, n, c, e)
    decreases k
  {
    e := b;
    if b < k {
      e := CallChain(run, steps, b, k - 1, t, a, cur, neu, n, c);
      e := NextCallAt(run, steps, b, k - 1, t, a, cur, neu, n, c, e);
    }
  }

  /** What a `compare_and_swap` in flight since state `b` has done by state `k`. */
  lemma CallSoFar(run: seq<State>, steps: seq<Step>, b: nat, k: nat, t: nat, a: nat, cur: Ptr, neu: Ptr, n: nat)
    returns (e: nat)
    requires IsRun(run, steps) && b <= k && InCalls(run, b, k, t)
    requires InCall(run[b].threads[t].op, a, cur, neu) && !run[b].threads[t].op.Pay?
    requires a < |run[b].storages| && n < |run[b].storages[a].log| && ReadsFrom(run[b].threads[t], n)
    ensures CallAt(run, steps, b, k, t, a, cur, neu, n, run[b].threads[t].op.neu, e)
  {
    forall j: nat | b <= j < k ensures Proceeds(run, steps, j, t, a, cur, neu) {
      RunProceeds(run, steps, j, t, a, cur, neu);
    }
    e := CallChain(run, steps, b, k, t, a, cur, neu, n, run[b].threads[t].op.neu);
  }

  /** A `compare_and_swap` that begins with step `i`, in all states up to `k`. */
  ghost predicate CasCall(run: seq<State>, steps: seq<Step>, i: nat, k: nat, t: nat, a: nat, cur: Ptr, neu: Ptr) {
    && |run| == |steps| + 1 && i < k && InCalls(run, i + 1, k, t) && StepAt(run, steps, i)
    && steps[i].CompareAndSwap? && steps[i].t == t && steps[i].a == a && steps[i].cur == cur
    && neu == run[i].book.claims[steps[i].c].ptr
  }

  lemma CasCallSoFar(run: seq<State>, steps: seq<Step>, i: nat, k: nat, t: nat, a: nat, cur: Ptr,
      neu: Ptr) returns (e: nat)
    requires IsRun(run, steps) && CasCall(run, steps, i, k, t, a, cur, neu)
    ensures a < |run[i].storages| && |run[i].storages[a].log| > 0 && run[i + 1].storages == run[i].storages
    ensures CallAt(run, steps, i + 1, k, t, a, cur, neu, |run[i].storages[a].log| - 1, steps[i].c, e)
    ensures NoOther(run, steps, i, k, t, a, e)
  {
    e := CallSoFar(run, steps, i + 1, k, t, a, cur, neu, |run[i].storages[a].log| - 1);
    assert !Adds(run, steps, i, t, a);
  }

  /** The content of `a` was `p` in some state from `i` to `k`, because the log says so. */
  lemma ContentFromLog(run: seq<State>, steps: seq<Step>, i: nat, k: nat, a: nat, lin: nat, p: Ptr) returns (m: nat)
    requires IsRun(run, steps) && i <= k < |run| && a < |run[i].storages| && 0 < |run[i].storages[a].log| <= lin + 1
    requires InLog(run[k], a, 0, lin, p)
    ensures i <= m <= k && a < |run[m].storages| && run[m].storages[a].ptr == p && |run[m].storages[a].log| == lin + 1
  {
    m := WasContent(run, steps, i, k, a, lin);
    RunsInv(run, steps, m);
  }

  /**
   A `compare_and_swap` that begins with step `i` and returns with step `k`. If it returns `cur`, exactly one step of
   its own in between has added to the log, and put the new value directly over `cur`. Otherwise none has, and what it
   returns was the content of the storage in between.
   */
  lemma CompareAndSwapIsAtomic(run: seq<State>, steps: seq<Step>, i: nat, k: nat, t: nat, a: nat, cur: Ptr, neu: Ptr)
    returns (p: Ptr, e: nat)
    requires IsRun(run, steps) && CasCall(run, steps, i, k, t, a, cur, neu) && k < |steps|
    requires Actor(run[k], steps[k]) == t
    requires t < |run[k + 1].threads| && run[k + 1].threads[t].op.Ready?
    ensures |run[k + 1].events| == |run[k].events| + 1
    ensures p == cur ==>
      && i < e < k && AddsOver(run, steps, e, t, a, cur, Write(neu, Some(cur)))
      && NoOther(run, steps, i, k + 1, t, a, e)
      && |run[e].storages[a].log| > 0
      && run[k + 1].events[|run[k].events|] == CasReturned(t, a, cur, neu, p, Some(|run[e].storages[a].log| - 1))
    ensures p != cur ==>
      && NoOther(run, steps, i, k + 1, t, a, k + 1) && i < e <= k && a < |run[e].storages|
      && run[e].storages[a].ptr == p
      && run[k + 1].events[|run[k].events|] == CasReturned(t, a, cur, neu, p, None)
  {
    e := CasCallSoFar(run, steps, i, k, t, a, cur, neu);
    RunProceeds(run, steps, k, t, a, cur, neu);
    assert Returns(run[k], run[k + 1], t, a, cur, neu);
    var o := run[k].threads[t].op;
    if o.Pay? {
      p := cur;
    } else {
      p := o.gptr;
      CasMissRead(run, steps, k, t);
      e := ContentFromLog(run, steps, i + 1, k, a, o.lin, p);
    }
  }

  lemma CasMissRead(run: seq<State>, steps: seq<Step>, k: nat, t: nat)
    requires IsRun(run, steps) && k < |run| && t < |run[k].threads|
    ensures var o := run[k].threads[t].op;
      && (o.CasMiss? ==> InLog(run[k], o.a, 0, o.lin, o.gptr))
      && (o.CasTry? ==> InLog(run[k], o.a, 0, o.lin, o.cur))
  {
    RunsInv(run, steps, k);
    assert WriterOk(run[k], t);
  }

  // ---- swap and into_inner ----

  /** A step of a writer on its way through `pay_all`: it only moves on, or returns. */
  ghost predicate MovesOn(s: State, s': State, t: nat) {
    && t < |s.threads| && t < |s'.threads| && s.threads[t].op.Pay? && s'.storages == s.storages
    && (|| (s'.threads[t].op.Pay? && s'.threads[t].op == s.threads[t].op.(pc := s'.threads[t].op.pc))
        || (s'.threads[t].op.Ready? && (s.threads[t].op.after.RetOld? ==>
          var o := s.threads[t].op; s'.events == s.events + [SwapReturned(t, o.a, o.at, o.gone, o.after.put)])))
  }

  lemma OwnMovesOn(s: State, t: nat)
    requires Sane(s) && AllHeld(s) && CanRun(s, t) && ShapeOk(s, t) && s.threads[t].op.Pay?
    ensures MovesOn(s, RunThread(s, t), t)
  {
    if s.threads[t].load.Loading? {
      if !s.threads[t].load.pc.Done? { LoadStepMoves(s, t); }
    } else if !Unattached(s.threads[t].op) {
      PayThreads(s, t);
      Served(s, t, Val);
    }
  }

  /** Step `j` leaves a writer where it is, or moves it on. */
  ghost predicate PayProceeds(run: seq<State>, steps: seq<Step>, j: nat, t: nat) {
    && |run| == |steps| + 1 && j < |steps| && t < |run[j].threads| && t < |run[j + 1].threads|
    && (run[j].threads[t].op.Pay? ==>
      if Actor(run[j], steps[j]) == t then MovesOn(run[j], run[j + 1], t)
      else run[j + 1].threads[t] == run[j].threads[t])
  }

  lemma RunPayProceeds(run: seq<State>, steps: seq<Step>, j: nat, t: nat)
    requires IsRun(run, steps) && j < |steps| && t < |run[j].threads|
    ensures PayProceeds(run, steps, j, t)
  {
    RunsInv(run, steps, j);
    assert StepAt(run, steps, j);
    StepCredits(run[j], steps[j]);
    if run[j].threads[t].op.Pay? {
      if Actor(run[j], steps[j]) != t { OtherActor(run[j], steps[j], t); }
      else if steps[j].Run? {
        assert ThreadOk(run[j], t);
        OwnMovesOn(run[j], t);
      }
    }
  }

  lemma {:induction false} PayChain(run: seq<State>, steps: seq<Step>, b: nat, k: nat, t: nat)
    requires b <= k && InCalls(run, b, k, t) && run[b].threads[t].op.Pay?
    requires forall j: nat :: b <= j < k ==> PayProceeds(run, steps, j, t)
    ensures run[k].threads[t].op.Pay? && run[k].threads[t].op == run[b].threads[t].op.(pc := run[k].threads[t].op.pc)
    ensures forall j: nat, a: nat :: b <= j < k ==> !Adds(run, steps, j, t, a)
    decreases k
  {
    if b < k {
      var j := k - 1;
      PayChain(run, steps, b, j, t);
      assert PayProceeds(run, steps, j, t);
      assert forall a: nat :: !Adds(run, steps, j, t, a);
    }
  }

  /** A writer that began to pay in state `b` and returns with step `k` adds to no log in between. */
  lemma PayReturns(run: seq<State>, steps: seq<Step>, b: nat, k: nat, t: nat)
    requires IsRun(run, steps) && b <= k < |steps| && InCalls(run, b, k, t) && run[b].threads[t].op.Pay?
    requires Actor(run[k], steps[k]) == t && t < |run[k + 1].threads| && run[k + 1].threads[t].op.Ready?
    ensures run[k].threads[t].op.Pay? && run[k].threads[t].op == run[b].threads[t].op.(pc := run[k].threads[t].op.pc)
    ensures var o := run[b].threads[t].op; o.after.RetOld? ==>
      run[k + 1].events == run[k].events + [SwapReturned(t, o.a, o.at, o.gone, o.after.put)]
    ensures forall j: nat, a: nat :: b <= j < k + 1 ==> !Adds(run, steps, j, t, a)
  {
    forall j: nat | b <= j < k ensures PayProceeds(run, steps, j, t) { RunPayProceeds(run, steps, j, t); }
    PayChain(run, steps, b, k, t);
    RunPayProceeds(run, steps, k, t);
    assert forall a: nat :: !Adds(run, steps, k, t, a);
  }

  /** A `swap` returns what the storage had when the first step of the call put the new value in; it adds no more. */
  lemma SwapIsAtomic(run: seq<State>, steps: seq<Step>, i: nat, k: nat, t: nat, a: nat, c: nat) returns (p: Ptr)
    requires IsRun(run, steps) && i < k < |steps| && steps[i] == SwapIn(t, a, c) && StepAt(run, steps, i)
    requires InCalls(run, i + 1, k, t) && Actor(run[k], steps[k]) == t
    requires t < |run[k + 1].threads| && run[k + 1].threads[t].op.Ready?
    ensures AddsOver(run, steps, i, t, a, p, Write(run[i].book.claims[c].ptr, None))
    ensures NoOther(run, steps, i, k + 1, t, a, i)
    ensures run[k + 1].events ==
      run[k].events + [SwapReturned(t, a, Newest(run[i], a), p, Some(run[i].book.claims[c].ptr))]
  {
    p := run[i].storages[a].ptr;
    PayReturns(run, steps, i + 1, k, t);
  }

  /** `into_inner` returns the last content of the storage; it adds nothing. */
  lemma IntoInnerIsAtomic(run: seq<State>, steps: seq<Step>, i: nat, k: nat, t: nat, a: nat)
    requires IsRun(run, steps) && i < k < |steps| && steps[i] == TakeOut(t, a, false) && StepAt(run, steps, i)
    requires InCalls(run, i + 1, k, t) && Actor(run[k], steps[k]) == t
    requires t < |run[k + 1].threads| && run[k + 1].threads[t].op.Ready?
    ensures NoOther(run, steps, i, k + 1, t, a, k + 1)
    ensures run[k + 1].events == run[k].events + [SwapReturned(t, a, Newest(run[i], a), run[i].storages[a].ptr, None)]
  {
    PayReturns(run, steps, i + 1, k, t);
    assert !Adds(run, steps, i, t, a);
  }

  // ---- Failed attempts ----

  /** Only exchanges add to logs. */
  lemma WhoAdds(s: State, step: Step, a: nat)
    requires Sane(s) && Enabled(s, step) && a < |s.storages| && |s.storages[a].log| < |Next(s, step).storages[a].log|
    ensures Actor(s, step) < |s.threads|
  {
  }

  /** The step that put something behind entry `n`. */
  lemma {:induction false} WhenReplaced(run: seq<State>, steps: seq<Step>, i: nat, k: nat, a: nat,
      n: nat) returns (j: nat)
    requires IsRun(run, steps) && i <= k < |run| && a < |run[i].storages| && 0 < |run[i].storages[a].log| <= n + 1
    requires a < |run[k].storages| && n + 1 < |run[k].storages[a].log|
    ensures i <= j < k && a < |run[j].storages| && a < |run[j + 1].storages|
    ensures |run[j].storages[a].log| == n + 1 < |run[j + 1].storages[a].log|
    decreases k - i
  {
    assert i < k by { if i == k { assert false; } }
    assert StepAt(run, steps, i);
    StepOneWrite(run[i], steps[i]);
    if |run[i + 1].storages[a].log| == n + 2 { j := i; } else { j := WhenReplaced(run, steps, i + 1, k, a, n); }
  }

  /**
   An attempt of `compare_and_swap` whose exchange fails, not spuriously, with step `k`: after its own load had read the
   storage, and during the call, another thread has replaced just what that load had read.
   */
  lemma RetriesAreCharged(run: seq<State>, steps: seq<Step>, i: nat, k: nat, t: nat, a: nat, cur: Ptr, neu: Ptr)
    returns (j: nat, u: nat)
    requires IsRun(run, steps) && CasCall(run, steps, i, k, t, a, cur, neu) && k < |steps| && steps[k] == Run(t)
    requires run[k].threads[t].op.CasTry? && t < |run[k + 1].threads| && !run[k + 1].threads[t].op.Pay?
    ensures i < j < k && u != t && u < |run[j].threads| && Adds(run, steps, j, u, a)
    ensures |run[j].storages[a].log| == run[k].threads[t].op.lin + 1
  {
    var e := CasCallSoFar(run, steps, i, k, t, a, cur, neu);
    var lin := run[k].threads[t].op.lin;
    FailedIsReplaced(run, steps, k, t);
    j := WhenReplaced(run, steps, i + 1, k, a, lin);
    RunsInv(run, steps, j);
    assert StepAt(run, steps, j);
    WhoAdds(run[j], steps[j], a);
    u := Actor(run[j], steps[j]);
    assert Adds(run, steps, j, u, a);
  }

  lemma FailedIsReplaced(run: seq<State>, steps: seq<Step>, k: nat, t: nat)
    requires IsRun(run, steps) && k < |steps| && steps[k] == Run(t) && t < |run[k].threads|
    requires run[k].threads[t].op.CasTry?
    requires t < |run[k + 1].threads| && !run[k + 1].threads[t].op.Pay?
    ensures var o := run[k].threads[t].op; o.a < |run[k].storages| && o.lin + 1 < |run[k].storages[o.a].log|
    ensures run[k + 1].threads[t].op.CasDropPay? || run[k + 1].threads[t].op.CasDropDec?
  {
    RunsInv(run, steps, k);
    assert StepAt(run, steps, k) && WriterOk(run[k], t) && ThreadOk(run[k], t);
  }

  /** After such a failure every later attempt of the same call reads a later entry. */
  lemma RetriesReadLater(run: seq<State>, steps: seq<Step>, k: nat, l: nat, t: nat)
    requires IsRun(run, steps) && k < |steps| && steps[k] == Run(t) && k < l && InCalls(run, k, l, t)
    requires run[k].threads[t].op.CasTry? && !run[k + 1].threads[t].op.Pay?
    requires run[l].threads[t].op.CasTry? || run[l].threads[t].op.CasMiss?
    ensures run[l].threads[t].op.lin > run[k].threads[t].op.lin
  {
    var o := run[k].threads[t].op;
    FailedIsReplaced(run, steps, k, t);
    RunProceeds(run, steps, k, t, o.a, o.cur, o.nptr);
    var e := CallSoFar(run, steps, k + 1, l, t, o.a, o.cur, o.nptr, |run[k].storages[o.a].log| - 1);
  }
}
