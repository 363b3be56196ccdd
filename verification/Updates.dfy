/**
 No update is lost. Every call of `rcu` that has stored something has an entry of its own in the log, directly behind
 what it was computed from; and where only `rcu` writes, the content is the function applied once for each call.
 */
module Updates {
  import opened Ledger
  import opened Machine
  import opened Protocol
  import opened History
  import opened Invariant
  import opened Exchanges
  import opened ReadCopyUpdate
  import Linearizability

  // ---- Each call has an entry of its own ----

  /** The `rcu` of thread `t` has stored into `a`, behind entry `at`, and has yet to return. */
  ghost predicate UpdatedBy(w: World, t: nat, a: nat, at: nat) {
    && t < |w.tasks| && t < |w.m.threads|
    && match w.tasks[t]
       case Exchange(b, _, _, _) => b == a && w.m.threads[t].op.Pay? && w.m.threads[t].op.at == at
       case Own(b, _, _, u) => b == a && u.at == at
       case PayPrev(b, _, _, _, u) => b == a && u.at == at
       case DecPrev(b, _, _, _, u) => b == a && u.at == at
       case Last(b, _, _, u) => b == a && u.at == at
       case _ => false
  }

  ghost predicate FinishedAt(w: World, i: nat, a: nat, at: nat) {
    i < |w.done| && w.done[i].a == a && w.done[i].u.at == at
  }

  ghost predicate UpdatesApart(w: World) {
    && (forall t: nat, u: nat, a: nat, at: nat :: UpdatedBy(w, t, a, at) && UpdatedBy(w, u, a, at) ==> t == u)
    && (forall i: nat, j: nat, a: nat, at: nat :: FinishedAt(w, i, a, at) && FinishedAt(w, j, a, at) ==> i == j)
    && (forall t: nat, i: nat, a: nat, at: nat :: UpdatedBy(w, t, a, at) ==> !FinishedAt(w, i, a, at))
  }

  lemma UpdateIsOld(w: World, t: nat, a: nat, at: nat)
    requires WorldInv(w) && UpdatedBy(w, t, a, at)
    ensures a < |w.m.storages| && at + 1 < |w.m.storages[a].log|
  {
    assert TaskOk(w, t) && WriterOk(w.m, t);
  }

  lemma FinishedIsOld(w: World, i: nat, a: nat, at: nat)
    requires WorldInv(w) && FinishedAt(w, i, a, at)
    ensures a < |w.m.storages| && at + 1 < |w.m.storages[a].log|
  {
    assert Stands(w, w.done[i].a, w.done[i].u);
  }

  /** What an action of thread `t` may do to updates: add one behind the newest entry, or return with one. */
  ghost predicate UpdateStep(w: World, w': World, t: nat) {
    && (forall u: nat, a: nat, at: nat :: u != t ==> (UpdatedBy(w', u, a, at) <==> UpdatedBy(w, u, a, at)))
    && (forall a: nat, at: nat :: UpdatedBy(w', t, a, at) ==>
      UpdatedBy(w, t, a, at) || (a < |w.m.storages| && at + 1 == |w.m.storages[a].log|))
    && w.done <= w'.done && |w'.done| <= |w.done| + 1
    && (forall a: nat, at: nat :: FinishedAt(w', |w.done|, a, at) ==>
      UpdatedBy(w, t, a, at) && !UpdatedBy(w', t, a, at))
  }

  lemma UpdateStepKeeps(w: World, w': World, t: nat)
    requires WorldInv(w) && UpdatesApart(w) && UpdateStep(w, w', t)
    ensures UpdatesApart(w')
  {
    forall u: nat, a: nat, at: nat | UpdatedBy(w', u, a, at) && UpdatedBy(w', t, a, at) ensures u == t {
      if u != t { UpdateIsOld(w, u, a, at); }
    }
    forall u: nat, v: nat, a: nat, at: nat | UpdatedBy(w', u, a, at) && UpdatedBy(w', v, a, at) ensures u == v {
      assert u != t ==> UpdatedBy(w, u, a, at);
      assert v != t ==> UpdatedBy(w, v, a, at);
    }
    forall i: nat, j: nat, a: nat, at: nat | FinishedAt(w', i, a, at) && FinishedAt(w', j, a, at) ensures i == j {
      assert i < |w.done| ==> FinishedAt(w, i, a, at);
      assert j < |w.done| ==> FinishedAt(w, j, a, at);
    }
    forall u: nat, i: nat, a: nat, at: nat | UpdatedBy(w', u, a, at) ensures !FinishedAt(w', i, a, at) {
      assert u != t ==> UpdatedBy(w, u, a, at);
      if i < |w.done| && FinishedAt(w, i, a, at) { FinishedIsOld(w, i, a, at); }
      assert i < |w.done| && FinishedAt(w', i, a, at) ==> FinishedAt(w, i, a, at);
    }
  }

  lemma ExchangeUpdates(w: World, step: Step, t: nat)
    requires WorldInv(w) && CanAct(w, Plain(step)) && (step.Run? || step.SpuriousFail?) && step.t == t
    requires w.tasks[t].Exchange?
    ensures forall a: nat, at: nat :: UpdatedBy(NextWorld(w, Plain(step)), t, a, at) ==>
      UpdatedBy(w, t, a, at) || (a < |w.m.storages| && at + 1 == |w.m.storages[a].log|)
  {
    var s, r := w.m, w.tasks[t];
    assert TaskOk(w, t);
    OwnCallStep(s, step, t, r.a, r.src, r.neu);
    if Next(s, step).threads[t].op.Ready? {
      assert step.Run?;
      VerdictIsRight(s, t, r.a, r.src, r.neu);
    }
  }

  lemma MoverUpdates(w: World, act: Action, t: nat)
    requires WorldInv(w) && CanAct(w, act) && Mover(w, act) == t && t < |w.tasks|
    ensures forall a: nat, at: nat :: UpdatedBy(NextWorld(w, act), t, a, at) ==>
      UpdatedBy(w, t, a, at) || (a < |w.m.storages| && at + 1 == |w.m.storages[a].log|)
  {
    if act.Plain? && w.tasks[t].Exchange? { ExchangeUpdates(w, act.step, t); }
  }

  lemma OtherUpdates(w: World, act: Action, t: nat)
    requires WorldInv(w) && CanAct(w, act) && t < |w.tasks| && Mover(w, act) != t
    ensures forall a: nat, at: nat :: UpdatedBy(NextWorld(w, act), t, a, at) <==> UpdatedBy(w, t, a, at)
  {
    StepTask(w, act, t);
    if Actor(w.m, StepOf(w, act)) == t { BeginnerTask(w, act, t); } else { OtherActor(w.m, StepOf(w, act), t); }
    DoneGrows(w, act);
  }

  lemma ActUpdates(w: World, act: Action)
    requires WorldInv(w) && CanAct(w, act)
    ensures UpdateStep(w, NextWorld(w, act), Mover(w, act))
  {
    var w', t := NextWorld(w, act), Mover(w, act);
    StepWorld(w, act);
    DoneGrows(w, act);
    if t < |w.tasks| { MoverUpdates(w, act, t); StepTask(w, act, t); }
    forall u: nat, a: nat, at: nat | u != t ensures UpdatedBy(w', u, a, at) <==> UpdatedBy(w, u, a, at) {
      if u < |w.tasks| {
        OtherUpdates(w, act, u);
        StepTask(w, act, u);
      }
    }
  }

  lemma {:induction false} WorldRunsApart(ws: seq<World>, acts: seq<Action>, n: nat)
    requires IsWorldRun(ws, acts) && n < |ws|
    ensures UpdatesApart(ws[n])
  {
    if n > 0 {
      WorldRunsApart(ws, acts, n - 1);
      WorldRunsInv(ws, acts, n - 1);
      assert ActAt(ws, acts, n - 1);
      ActUpdates(ws[n - 1], acts[n - 1]);
      UpdateStepKeeps(ws[n - 1], ws[n], Mover(ws[n - 1], acts[n - 1]));
    }
  }

  /**
   An `rcu` that has returned has an entry of its own: what the function has made of the entry just before it. No other
   `rcu`, returned or on its way, has the same.
   */
  lemma EachRcuHasItsEntry(ws: seq<World>, acts: seq<Action>, n: nat, i: nat)
    requires IsWorldRun(ws, acts) && n < |ws| && i < |ws[n].done|
    ensures var w := ws[n]; var a, u := w.done[i].a, w.done[i].u;
      && InLog(w.m, a, 0, u.at, u.src) && Follows(w.m, a, u.at, Write(u.neu, Some(u.src))) && (u.neu, u.src) in w.made
      && (forall j: nat :: FinishedAt(w, j, a, u.at) ==> j == i)
      && (forall t: nat :: !UpdatedBy(w, t, a, u.at))
  {
    WorldRunsInv(ws, acts, n);
    WorldRunsApart(ws, acts, n);
    assert Stands(ws[n], ws[n].done[i].a, ws[n].done[i].u);
    assert FinishedAt(ws[n], i, ws[n].done[i].a, ws[n].done[i].u.at);
  }

  // ---- Only rcu ----

  /** The operation may store into `a`, or has done so. */
  predicate Writes(o: Op, a: nat) {
    ((o.CasLoad? || CasOp(o)) && o.a == a) || (o.Pay? && PutsIn(o.after) && o.a == a)
  }

  /** The step of the program calls `swap` or `compare_and_swap` on `a`. */
  predicate Calls(step: Step, a: nat) {
    (step.SwapIn? || step.CompareAndSwap?) && step.a == a
  }

  lemma LoadWrites(s: State, t: nat, a: nat)
    requires Sane(s) && CanLoad(s, t) && ShapeOk(s, t) && Writes(RunLoad(s, t).threads[t].op, a)
    ensures Writes(s.threads[t].op, a)
  {
    if !s.threads[t].load.pc.Done? { LoadStepMoves(s, t); }
  }

  lemma HelpWrites(s: State, t: nat, a: nat)
    requires CanHelp(s, t) && t < |RunHelp(s, t).threads| && Writes(RunHelp(s, t).threads[t].op, a)
    ensures Writes(s.threads[t].op, a)
  {
  }

  lemma PayWrites(s: State, t: nat, a: nat)
    requires CanPay(s, t) && t < |RunPay(s, t).threads| && Writes(RunPay(s, t).threads[t].op, a)
    ensures Writes(s.threads[t].op, a)
  {
    if s.threads[t].op.pc.Helping? { HelpWrites(s, t, a); }
  }

  /** Who is writing to a storage has been writing to it, or begins just now. */
  lemma StepWrites(s: State, step: Step, a: nat)
    requires Inv(s) && Enabled(s, step) && Actor(s, step) < |s.threads|
    ensures var t := Actor(s, step);
      && t < |Next(s, step).threads|
      && (Writes(Next(s, step).threads[t].op, a) ==> Writes(s.threads[t].op, a) || Calls(step, a))
  {
    var t := Actor(s, step);
    assert ThreadOk(s, t);
    StepCredits(s, step);
    if step.Run? && Writes(Next(s, step).threads[t].op, a) {
      if s.threads[t].load.Loading? { LoadWrites(s, t, a); }
      else if Unattached(s.threads[t].op) {}
      else if s.threads[t].op.Pay? { PayWrites(s, t, a); }
      else { CasWrites(s, t, a); }
    }
  }

  lemma CasWrites(s: State, t: nat, a: nat)
    requires CanCas(s, t) && t < |RunCas(s, t).threads| && Writes(RunCas(s, t).threads[t].op, a)
    ensures Writes(s.threads[t].op, a)
  {
  }

  /** How a log grows: by `swap`, or by the exchange of a `compare_and_swap`. */
  lemma StepLog(s: State, step: Step, a: nat)
    requires Sane(s) && Enabled(s, step) && a < |s.storages| && !(step.SwapIn? && step.a == a)
    ensures a < |Next(s, step).storages|
    ensures
      || Next(s, step).storages[a].log == s.storages[a].log
      || (step.Run? && s.threads[step.t].op.CasTry? && s.threads[step.t].op.a == a)
  {
    if step.Run? && s.threads[step.t].load.Loading? { Linearizability.LoadOneWrite(s, step.t); }
  }

  /** If thread `t` is writing to `a`, its `rcu` is. */
  ghost predicate WritesByRcu(w: World, t: nat, a: nat) {
    && t < |w.tasks| && t < |w.m.threads|
    && (Writes(w.m.threads[t].op, a) ==> w.tasks[t].Exchange? && w.tasks[t].a == a)
  }

  /** All writing to `a` is done by `rcu`, and has been. */
  ghost predicate OnlyByRcu(w: World, a: nat) {
    && a < |w.m.storages| && (forall t: nat :: t < |w.tasks| ==> WritesByRcu(w, t, a))
    && (forall k: nat :: 1 <= k < |w.m.storages[a].log| ==> Computes(w, w.m.storages[a].log[k]))
  }

  /** The entry is what the function has made of what it replaced. */
  ghost predicate Computes(w: World, e: Write) {
    e.expected.Some? && (e.ptr, e.expected.value) in w.made
  }

  /** The threads whose `rcu` has stored into `a` and has yet to return. */
  ghost function OnTheirWay(w: World, a: nat): set<nat> {
    set t: nat | t < |w.tasks| && HasStored(w, t, a)
  }

  ghost predicate HasStored(w: World, t: nat, a: nat)
    requires t < |w.tasks|
  {
    && t < |w.m.threads|
    && match w.tasks[t]
       case Exchange(b, _, _, _) => b == a && w.m.threads[t].op.Pay?
       case Own(b, _, _, _) => b == a
       case PayPrev(b, _, _, _, _) => b == a
       case DecPrev(b, _, _, _, _) => b == a
       case Last(b, _, _, _) => b == a
       case _ => false
  }

  /** The calls of `rcu` on `a` that have returned. */
  ghost function Through(w: World, a: nat): set<nat> {
    set i: nat | i < |w.done| && w.done[i].a == a
  }

  ghost predicate Counted(w: World, a: nat)
    requires a < |w.m.storages|
  {
    |w.m.storages[a].log| == 1 + |OnTheirWay(w, a)| + |Through(w, a)|
  }

  lemma OthersStored(w: World, act: Action, a: nat, t: nat)
    requires WorldInv(w) && CanAct(w, act) && t < |w.tasks| && Mover(w, act) != t
    ensures t < |NextWorld(w, act).tasks| && (HasStored(NextWorld(w, act), t, a) <==> HasStored(w, t, a))
  {
    StepTask(w, act, t);
    DoneGrows(w, act);
    if Actor(w.m, StepOf(w, act)) == t { BeginnerTask(w, act, t); } else { OtherActor(w.m, StepOf(w, act), t); }
  }

  /** The sets of calls, when the call of thread `t` is the only one to change. */
  lemma SetsAfter(w: World, act: Action, a: nat)
    requires WorldInv(w) && CanAct(w, act)
    ensures var w', t := NextWorld(w, act), Mover(w, act);
      && |w'.tasks| == |w.tasks|
      && (t < |w.tasks| ==>
        OnTheirWay(w', a) == if HasStored(w', t, a) then OnTheirWay(w, a) + {t} else OnTheirWay(w, a) - {t})
      && (t >= |w.tasks| ==> OnTheirWay(w', a) == OnTheirWay(w, a))
  {
    var w', t := NextWorld(w, act), Mover(w, act);
    forall u: nat | u < |w.tasks| && u != t ensures u < |w'.tasks| && (HasStored(w', u, a) <==> HasStored(w, u, a)) {
      OthersStored(w, act, a, u);
    }
    assert |w'.tasks| == |w.tasks|;
    SetsDiffer(w, w', t, a);
  }

  lemma SetsDiffer(w: World, w': World, t: nat, a: nat)
    requires |w'.tasks| == |w.tasks|
    requires forall u: nat :: u < |w.tasks| && u != t ==> (HasStored(w', u, a) <==> HasStored(w, u, a))
    ensures t < |w.tasks| ==>
      OnTheirWay(w', a) == if HasStored(w', t, a) then OnTheirWay(w, a) + {t} else OnTheirWay(w, a) - {t}
    ensures t >= |w.tasks| ==> OnTheirWay(w', a) == OnTheirWay(w, a)
  {
  }

  // ---- Counting ----

  /** An action leaves the log of `a` alone, and the call of thread `t` on the same side of its exchange. */
  ghost predicate SameSide(w: World, w': World, t: nat, a: nat) {
    && a < |w.m.storages| && a < |w'.m.storages| && w'.m.storages[a].log == w.m.storages[a].log
    && (t < |w.tasks| ==> t < |w'.tasks| && (HasStored(w', t, a) <==> HasStored(w, t, a))) && w'.done == w.done
  }

  /** The call of thread `t` puts what the function has made behind the newest entry. */
  ghost predicate Crosses(w: World, w': World, t: nat, a: nat) {
    && a < |w.m.storages| && a < |w'.m.storages| && t < |w.tasks| && t < |w'.tasks|
    && !HasStored(w, t, a) && HasStored(w', t, a) && w'.done == w.done
    && exists e :: Computes(w', e) && w'.m.storages[a].log == w.m.storages[a].log + [e]
  }

  /** The call of thread `t` returns. */
  ghost predicate Leaves(w: World, w': World, t: nat, a: nat) {
    && a < |w.m.storages| && a < |w'.m.storages| && w'.m.storages[a].log == w.m.storages[a].log
    && t < |w.tasks| && t < |w'.tasks| && HasStored(w, t, a) && !HasStored(w', t, a)
    && |w'.done| == |w.done| + 1 && w.done <= w'.done && w'.done[|w.done|].a == a
  }

  /** A call on another storage returns. */
  ghost predicate LeavesOther(w: World, w': World, t: nat, a: nat) {
    && a < |w.m.storages| && a < |w'.m.storages| && w'.m.storages[a].log == w.m.storages[a].log
    && t < |w.tasks| && t < |w'.tasks| && !HasStored(w, t, a) && !HasStored(w', t, a)
    && |w'.done| == |w.done| + 1 && w.done <= w'.done && w'.done[|w.done|].a != a
  }

  ghost predicate SideStep(w: World, w': World, t: nat, a: nat) {
    SameSide(w, w', t, a) || Crosses(w, w', t, a) || Leaves(w, w', t, a) || LeavesOther(w, w', t, a)
  }

  lemma ExchangeSide(w: World, step: Step, t: nat, a: nat)
    requires WorldInv(w) && CanAct(w, Plain(step)) && (step.Run? || step.SpuriousFail?) && step.t == t
    requires w.tasks[t].Exchange?
    requires a < |w.m.storages|
    ensures SideStep(w, NextWorld(w, Plain(step)), t, a)
  {
    var s, s', r, w' := w.m, Next(w.m, step), w.tasks[t], NextWorld(w, Plain(step));
    assert TaskOk(w, t);
    StepLog(s, step, a);
    OwnCallStep(s, step, t, r.a, r.src, r.neu);
    if s'.threads[t].op.Ready? {
      assert step.Run?;
      ReturnSide(w, t, a);
    } else {
      CallSides(w, w', t, a);
    }
  }

  lemma ReturnSide(w: World, t: nat, a: nat)
    requires WorldInv(w) && CanAct(w, Plain(Run(t))) && w.tasks[t].Exchange? && a < |w.m.storages|
    requires t < |Next(w.m, Run(t)).threads| && Next(w.m, Run(t)).threads[t].op.Ready?
    requires Next(w.m, Run(t)).storages == w.m.storages
    ensures SameSide(w, NextWorld(w, Plain(Run(t))), t, a)
  {
    var r := w.tasks[t];
    assert TaskOk(w, t);
    VerdictIsRight(w.m, t, r.a, r.src, r.neu);
    VerdictSide(w, NextWorld(w, Plain(Run(t))), t, a);
  }

  /** The return of `compare_and_swap`. */
  lemma VerdictSide(w: World, w': World, t: nat, a: nat)
    requires t < |w.tasks| && t < |w.m.threads| && t < |w'.m.threads| && w.tasks[t].Exchange? && w'.done == w.done
    requires w'.tasks == w.tasks[t := Verdict(w.tasks[t], w.m.threads[t].op, w.m.book)]
    requires GoodVerdict(w.m, w'.m, t, w.tasks[t].a, w.tasks[t].src, w.tasks[t].neu)
    requires w'.m.storages == w.m.storages && a < |w.m.storages|
    ensures SameSide(w, w', t, a)
  {
  }

  /** A step inside `compare_and_swap` on the way to, or behind, its exchange. */
  lemma CallSides(w: World, w': World, t: nat, a: nat)
    requires t < |w.tasks| && t < |w.m.threads| && t < |w'.m.threads| && w.tasks[t].Exchange? && w'.tasks == w.tasks
    requires TaskOk(w, t) && w'.made == w.made && w'.done == w.done && !w'.m.threads[t].op.Ready?
    requires CallStep(w.m, w'.m, t, w.tasks[t].a, w.tasks[t].src, w.tasks[t].neu)
    requires a < |w.m.storages| && a < |w'.m.storages|
    requires w'.m.storages[a].log == w.m.storages[a].log || (w.m.threads[t].op.CasTry? && w.m.threads[t].op.a == a)
    ensures SideStep(w, w', t, a)
  {
    var r := w.tasks[t];
    if r.a == a && PutsNew(w.m, w'.m, t, a, r.src, r.neu) {
      assert Computes(w', Write(r.neu, Some(r.src)));
    }
  }

  /** Outside of `compare_and_swap` nothing of this happens. */
  lemma QuietSide(w: World, act: Action, t: nat, a: nat)
    requires WorldInv(w) && CanAct(w, act) && Mover(w, act) == t && OnlyByRcu(w, a) && !act.Tail?
    requires act.Plain? ==> !Calls(act.step, a) && (t < |w.tasks| ==> !w.tasks[t].Exchange?)
    ensures SameSide(w, NextWorld(w, act), t, a)
  {
    StepLog(w.m, StepOf(w, act), a);
    DoneGrows(w, act);
    if t < |w.tasks| {
      assert WritesByRcu(w, t, a);
      QuietTask(w, act, t, a);
    }
  }

  /** A call of `rcu` that is not in `compare_and_swap` has stored nothing, and so have none but those at the end. */
  lemma QuietTask(w: World, act: Action, t: nat, a: nat)
    requires WorldInv(w) && CanAct(w, act) && Mover(w, act) == t < |w.tasks| && !act.Tail?
    requires act.Plain? ==> !w.tasks[t].Exchange?
    ensures t < |NextWorld(w, act).tasks| && (HasStored(NextWorld(w, act), t, a) <==> HasStored(w, t, a))
  {
    assert TaskOk(w, t);
    StepTask(w, act, t);
  }

  lemma TailSides(w: World, w': World, t: nat, a: nat)
    requires t < |w.tasks| && InTail(w.tasks[t]) && w'.tasks == w.tasks[t := TailTask(w.tasks[t], w.m.book)]
    requires w'.m.threads == w.m.threads && t < |w.m.threads| && w'.m.storages == w.m.storages && a < |w.m.storages|
    requires
      if w.tasks[t].Last? && w'.tasks[t].NoRcu? then w'.done == w.done + [Finished(t, w.tasks[t].a, w.tasks[t].u)]
      else w'.done == w.done
    ensures SideStep(w, w', t, a)
  {
  }

  lemma TailSide(w: World, t: nat, a: nat)
    requires |w.tasks| == |w.m.threads| && CanAct(w, Tail(t)) && a < |w.m.storages|
    ensures SideStep(w, NextWorld(w, Tail(t)), t, a)
  {
    TailSides(w, NextWorld(w, Tail(t)), t, a);
  }

  lemma ActSide(w: World, act: Action, a: nat)
    requires WorldInv(w) && CanAct(w, act) && OnlyByRcu(w, a) && !(act.Plain? && Calls(act.step, a))
    ensures SideStep(w, NextWorld(w, act), Mover(w, act), a)
  {
    var t := Mover(w, act);
    if act.Tail? { TailSide(w, t, a); }
    else if act.Plain? && t < |w.tasks| && w.tasks[t].Exchange? { ExchangeSide(w, act.step, t, a); }
    else { QuietSide(w, act, t, a); }
  }

  lemma Recount(w: World, w': World, t: nat, a: nat)
    requires SideStep(w, w', t, a) && Counted(w, a)
    requires t < |w.tasks| ==>
      OnTheirWay(w', a) == if HasStored(w', t, a) then OnTheirWay(w, a) + {t} else OnTheirWay(w, a) - {t}
    requires t >= |w.tasks| ==> OnTheirWay(w', a) == OnTheirWay(w, a)
    ensures Counted(w', a)
  {
    if |w'.done| > |w.done| && w'.done[|w.done|].a == a {
      assert Through(w', a) == Through(w, a) + {|w.done|};
    } else {
      assert Through(w', a) == Through(w, a);
    }
    assert t < |w.tasks| ==> (t in OnTheirWay(w, a) <==> HasStored(w, t, a));
  }

  // ---- Runs in which only rcu writes to a storage ----

  lemma StillRcu(w: World, act: Action, t: nat, a: nat)
    requires WorldInv(w) && CanAct(w, act) && OnlyByRcu(w, a) && !(act.Plain? && Calls(act.step, a)) && t < |w.tasks|
    ensures WritesByRcu(NextWorld(w, act), t, a)
  {
    var w', step := NextWorld(w, act), StepOf(w, act);
    assert WritesByRcu(w, t, a);
    StepTask(w, act, t);
    DoneGrows(w, act);
    if Writes(w'.m.threads[t].op, a) {
      if Actor(w.m, step) == t { StepWrites(w.m, step, a); } else { OtherActor(w.m, step, t); }
      if Mover(w, act) == t {
        assert TaskOk(w, t);
        WritingTask(w, act, t, a);
      }
    }
  }

  lemma WritingTask(w: World, act: Action, t: nat, a: nat)
    requires |w.tasks| == |w.m.threads| && CanAct(w, act) && Mover(w, act) == t < |w.tasks| && TaskOk(w, t)
    requires t < |NextWorld(w, act).m.threads| && Writes(NextWorld(w, act).m.threads[t].op, a)
    requires Writes(w.m.threads[t].op, a) ==> w.tasks[t].Exchange? && w.tasks[t].a == a
    requires Writes(w.m.threads[t].op, a) || Calls(StepOf(w, act), a) || act.Tail?
    requires act.Plain? ==> !Calls(act.step, a)
    ensures NextWorld(w, act).tasks[t].Exchange? && NextWorld(w, act).tasks[t].a == a
  {
  }

  /** A storage that has just been made. */
  lemma FreshCounts(w: World, a: nat)
    requires WorldInv(w) && a < |w.m.storages| && |w.m.storages[a].log| == 1
    requires forall t: nat :: t < |w.tasks| ==> !HasStored(w, t, a) && !Writes(w.m.threads[t].op, a)
    requires forall i: nat :: i < |w.done| ==> w.done[i].a != a
    ensures OnlyByRcu(w, a) && Counted(w, a)
  {
    assert OnTheirWay(w, a) == {} && Through(w, a) == {};
  }

  /** Nobody knows a storage before it is made. */
  lemma UnknownBefore(w: World, a: nat)
    requires WorldInv(w) && a >= |w.m.storages|
    ensures forall t: nat :: t < |w.tasks| ==> !HasStored(w, t, a) && !Writes(w.m.threads[t].op, a)
    ensures forall i: nat :: i < |w.done| ==> w.done[i].a != a
  {
    forall t: nat | t < |w.tasks| ensures !HasStored(w, t, a) && !Writes(w.m.threads[t].op, a) {
      assert TaskOk(w, t) && ThreadOk(w.m, t) && WriterOk(w.m, t);
    }
    forall i: nat | i < |w.done| ensures w.done[i].a != a { assert Stands(w, w.done[i].a, w.done[i].u); }
  }

  lemma NewStorageCounts(w: World, act: Action, a: nat)
    requires WorldInv(w) && CanAct(w, act) && a >= |w.m.storages| && a < |NextWorld(w, act).m.storages|
    ensures OnlyByRcu(NextWorld(w, act), a) && Counted(NextWorld(w, act), a)
  {
    UnknownBefore(w, a);
    StepWorld(w, act);
    NewStorageIsPlain(w.m, StepOf(w, act));
    var w' := NextWorld(w, act);
    assert act.Plain? && w'.tasks == w.tasks && w'.done == w.done;
    forall t: nat | t < |w'.tasks| ensures !HasStored(w', t, a) && !Writes(w'.m.threads[t].op, a) {
      assert !HasStored(w, t, a);
    }
    FreshCounts(w', a);
  }

  lemma NewStorageIsPlain(s: State, step: Step)
    requires Sane(s) && Enabled(s, step) && |Next(s, step).storages| > |s.storages|
    ensures step.NewStorage? && Next(s, step).threads == s.threads && |Next(s, step).storages| == |s.storages| + 1
    ensures |Next(s, step).storages[|s.storages|].log| == 1
  {
    if step.Run? && s.threads[step.t].load.Loading? { Linearizability.LoadOneWrite(s, step.t); }
  }

  lemma EntriesCompute(w: World, w': World, t: nat, a: nat)
    requires OnlyByRcu(w, a) && SideStep(w, w', t, a) && w.made <= w'.made
    ensures forall k: nat :: 1 <= k < |w'.m.storages[a].log| ==> Computes(w', w'.m.storages[a].log[k])
  {
    forall k: nat | 1 <= k < |w'.m.storages[a].log| ensures Computes(w', w'.m.storages[a].log[k]) {
      if k < |w.m.storages[a].log| { assert Computes(w, w.m.storages[a].log[k]); }
    }
  }

  lemma ActCounts(w: World, act: Action, a: nat)
    requires WorldInv(w) && CanAct(w, act) && OnlyByRcu(w, a) && Counted(w, a) && !(act.Plain? && Calls(act.step, a))
    ensures OnlyByRcu(NextWorld(w, act), a) && Counted(NextWorld(w, act), a)
  {
    var w', t := NextWorld(w, act), Mover(w, act);
    ActSide(w, act, a);
    SetsAfter(w, act, a);
    Recount(w, w', t, a);
    DoneGrows(w, act);
    EntriesCompute(w, w', t, a);
    forall u: nat | u < |w'.tasks| ensures WritesByRcu(w', u, a) { StillRcu(w, act, u, a); }
  }

  /** Nobody but `rcu` is called to write to `a`. */
  predicate OnlyRcu(acts: seq<Action>, a: nat) {
    forall i :: 0 <= i < |acts| ==> !(acts[i].Plain? && Calls(acts[i].step, a))
  }

  lemma {:induction false} RcuCounts(ws: seq<World>, acts: seq<Action>, n: nat, a: nat)
    requires IsWorldRun(ws, acts) && OnlyRcu(acts, a) && n < |ws| && a < |ws[n].m.storages|
    ensures OnlyByRcu(ws[n], a) && Counted(ws[n], a)
  {
    if n > 0 {
      WorldRunsInv(ws, acts, n - 1);
      assert ActAt(ws, acts, n - 1);
      if a < |ws[n - 1].m.storages| {
        RcuCounts(ws, acts, n - 1, a);
        ActCounts(ws[n - 1], acts[n - 1], a);
      } else {
        NewStorageCounts(ws[n - 1], acts[n - 1], a);
      }
    }
  }

  // ---- No update is lost ----

  /** `f` applied `n` times. */
  function Iterate<V>(f: V -> V, n: nat, v: V): V {
    if n == 0 then v else f(Iterate(f, n - 1, v))
  }

  lemma {:induction false} ChainIterates<V>(log: seq<Write>, val: Ptr -> V, f: V -> V, n: nat)
    requires LogOk(log) && n < |log|
    requires forall k :: 1 <= k < |log| ==> log[k].expected.Some? && val(log[k].ptr) == f(val(log[k].expected.value))
    ensures val(log[n].ptr) == Iterate(f, n, val(log[0].ptr))
  {
    if n > 0 {
      ChainIterates(log, val, f, n - 1);
      assert log[n].expected.Some?;
    }
  }

  /**
   Where only `rcu` writes, and always with results that are `f` of what the guard had, the content of a storage is its
   first content with `f` applied once for each `rcu` that has returned or has stored its update and is about to return.
   */
  lemma NoUpdateIsLost<V>(ws: seq<World>, acts: seq<Action>, n: nat, a: nat, val: Ptr -> V, f: V -> V)
    requires IsWorldRun(ws, acts) && OnlyRcu(acts, a) && n < |ws| && a < |ws[n].m.storages|
    requires forall p, q :: (p, q) in ws[n].made ==> val(p) == f(val(q))
    ensures var w := ws[n]; var st := w.m.storages[a];
      |st.log| > 0 && val(st.ptr) == Iterate(f, |Through(w, a)| + |OnTheirWay(w, a)|, val(st.log[0].ptr))
  {
    WorldRunsInv(ws, acts, n);
    RcuCounts(ws, acts, n, a);
    var log := ws[n].m.storages[a].log;
    assert LogOk(log);
    forall k | 1 <= k < |log| ensures log[k].expected.Some? && val(log[k].ptr) == f(val(log[k].expected.value)) {
      assert Computes(ws[n], log[k]);
    }
    ChainIterates(log, val, f, |log| - 1);
  }
}
