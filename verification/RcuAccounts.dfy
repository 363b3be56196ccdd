/**
 What `rcu` takes from the program and gives to it: it uses what its function returns, gives the value it returns, and
 releases every guard and count it has had in between.
 */
module RcuAccounts {
  import opened Ledger
  import opened Machine
  import opened Ownership
  import opened Protocol
  import opened History
  import opened Invariant
  import opened Exchanges
  import opened Handles
  import opened Accounts
  import opened ReadCopyUpdate
  import Safety

  /** The live claims of the program that belong to no running `rcu`. */
  ghost function FreeHand(w: World): set<nat> {
    set c: nat | c in Hand(w.m) && !Taken(w, c)
  }

  ghost predicate IsSpent(s: State, c: nat) {
    c < |s.book.claims| && s.book.claims[c].kind.Spent?
  }

  /** The action is one of a thread inside `rcu`, or calls it. */
  ghost predicate InRcu(w: World, act: Action, t: nat) {
    Mover(w, act) == t < |w.tasks| && (act.Plain? ==> !w.tasks[t].NoRcu?)
  }

  /** The call of thread `t` has returned with the action. */
  ghost predicate Ends(w: World, w': World, t: nat) {
    t < |w.tasks| && t < |w'.tasks| && !w.tasks[t].NoRcu? && w'.tasks[t].NoRcu?
  }

  lemma DropSpends(s: State, c: nat)
    requires c < |s.book.claims| && Enabled(s, DropStep(s.book, c)) && DropEnds(s.book, c)
    ensures IsSpent(Next(s, DropStep(s.book, c)), c)
  {
  }

  /** Whatever the tail of a call lets go of is spent, but for the result. */
  lemma TailLetsGo(w: World, t: nat, c: nat)
    requires |w.tasks| == |w.m.threads| && CanAct(w, Tail(t)) && TaskOk(w, t)
    requires var w' := NextWorld(w, Tail(t)); t < |w'.tasks| && Has(w.tasks[t], c) && !Has(w'.tasks[t], c)
    ensures IsSpent(NextWorld(w, Tail(t)).m, c) || (Ends(w, NextWorld(w, Tail(t)), t) && c == w.tasks[t].d)
  {
    var r := w.tasks[t];
    if (r.Again? || r.Last?) && DropEnds(w.m.book, r.c) { DropSpends(w.m, r.c); }
  }

  lemma LetsGo(w: World, act: Action, t: nat, c: nat)
    requires WorldInv(w) && CanAct(w, act) && InRcu(w, act, t) && Has(w.tasks[t], c)
    requires t < |NextWorld(w, act).tasks| && !Has(NextWorld(w, act).tasks[t], c)
    ensures IsSpent(NextWorld(w, act).m, c) || (Ends(w, NextWorld(w, act), t) && w.tasks[t].Last? && c == w.tasks[t].d)
  {
    assert TaskOk(w, t);
    if act.Tail? { TailLetsGo(w, t, c); }
  }

  /** With the end of a call its result is the program's, owned, on what the exchange has replaced; `cur` is spent. */
  lemma EndsGive(w: World, act: Action, t: nat)
    requires WorldInv(w) && CanAct(w, act) && InRcu(w, act, t) && Ends(w, NextWorld(w, act), t)
    ensures act == Tail(t) && w.tasks[t].Last?
    ensures var r, s' := w.tasks[t], NextWorld(w, act).m;
      && r.d in Hand(w.m) && r.d in Hand(s') && s'.book.claims[r.d].kind.Owned?
      && s'.book.claims[r.d].ptr == r.u.src && IsSpent(s', r.c) && r.c != r.d
    ensures NextWorld(w, act).done == w.done + [Finished(t, w.tasks[t].a, w.tasks[t].u)]
  {
    assert TaskOk(w, t);
    DoneGrows(w, act);
    if act.Tail? {
      EndIsLast(w, t);
      OtherClaimKept(w.m, StepOf(w, act), w.tasks[t].d);
      DropSpends(w.m, w.tasks[t].c);
    }
  }

  lemma EndIsLast(w: World, t: nat)
    requires |w.tasks| == |w.m.threads| && CanAct(w, Tail(t)) && Ends(w, NextWorld(w, Tail(t)), t)
    ensures w.tasks[t].Last? && DropEnds(w.m.book, w.tasks[t].c)
  {
  }

  /** What a call of the protocol gives to a thread inside `rcu` belongs to its `rcu`. */
  lemma RanHas(w: World, step: Step, t: nat, c: nat)
    requires WorldInv(w) && CanAct(w, Plain(step)) && InRcu(w, Plain(step), t)
    requires c in Hand(NextWorld(w, Plain(step)).m) && c !in Hand(w.m) && t < |NextWorld(w, Plain(step)).tasks|
    ensures Has(NextWorld(w, Plain(step)).tasks[t], c)
  {
    assert TaskOk(w, t);
    NewIsResult(w.m, step, c);
    if w.tasks[t].Exchange? { ReturnHas(w, step, t, c); }
  }

  lemma NewIsResult(s: State, step: Step, c: nat)
    requires Inv(s) && Enabled(s, step) && (step.Run? || step.SpuriousFail?)
    requires c in Hand(Next(s, step)) && c !in Hand(s)
    ensures step.Run? && step.t < |s.threads| && Result(s.threads[step.t]).Some?
    ensures Result(s.threads[step.t]).value.0 == c
    ensures s.threads[step.t].load.NoLoad? ==> c < |s.book.claims|
  {
    StepAccounted(s, step);
    if s.threads[step.t].load.NoLoad? { ResultIsThere(s, step.t); }
  }

  lemma ResultIsThere(s: State, t: nat)
    requires AllHeld(s) && t < |s.threads| && s.threads[t].load.NoLoad?
    ensures match Result(s.threads[t])
      case Some((g, _)) => g < |s.book.claims|
      case None => true
  {
    var o := s.threads[t].op;
    if ThreadExpects(s.threads[t], t, OldGuard).Some? { Served(s, t, OldGuard); }
    if o.Pay? { Served(s, t, Val); }
  }

  /** The verdict keeps the guard that `compare_and_swap` has returned. */
  lemma VerdictHas(r: Rcu, th: ThreadState, b: Book, g: nat, p: Ptr)
    requires r.Exchange? && InCall(th.op, r.a, r.src, r.neu) && Result(th) == Some((g, p)) && g < |b.claims|
    ensures Has(Verdict(r, th.op, b), g)
  {
  }

  lemma ReturnHas(w: World, step: Step, t: nat, c: nat)
    requires WorldInv(w) && CanAct(w, Plain(step)) && InRcu(w, Plain(step), t) && w.tasks[t].Exchange?
    requires step.Run? && Result(w.m.threads[t]).Some? && Result(w.m.threads[t]).value.0 == c < |w.m.book.claims|
    ensures Has(NextWorld(w, Plain(step)).tasks[t], c)
  {
    assert TaskOk(w, t) && ThreadOk(w.m, t);
    RanReturns(w.m, t);
    VerdictHas(w.tasks[t], w.m.threads[t], w.m.book, c, Result(w.m.threads[t]).value.1);
  }

  /** A thread that gives its result returns. */
  lemma RanReturns(s: State, t: nat)
    requires Inv(s) && CanRun(s, t) && Result(s.threads[t]).Some? && s.threads[t].load.NoLoad?
    ensures t < |RunThread(s, t).threads| && RunThread(s, t).threads[t].op.Ready?
  {
    MachineStep(s, Run(t));
  }

  /** New claims of the program come to the `rcu` whose step makes them. */
  lemma NewIsHad(w: World, act: Action, t: nat, c: nat)
    requires WorldInv(w) && CanAct(w, act) && InRcu(w, act, t)
    requires c in Hand(NextWorld(w, act).m) && c !in Hand(w.m) && t < |NextWorld(w, act).tasks|
    ensures Has(NextWorld(w, act).tasks[t], c)
  {
    assert TaskOk(w, t);
    StepAccounted(w.m, StepOf(w, act));
    if act.Plain? { RanHas(w, act.step, t, c); } else { OwnHas(w, act, t, c); }
  }

  /** The only claim the loop makes by itself is the count that `into_inner` adds. */
  lemma OwnHas(w: World, act: Action, t: nat, c: nat)
    requires |w.tasks| == |w.m.threads| && CanAct(w, act) && InRcu(w, act, t) && !act.Plain? && TaskOk(w, t)
    requires Accounted(w.m, StepOf(w, act), Next(w.m, StepOf(w, act)))
    requires c in Hand(Next(w.m, StepOf(w, act))) && c !in Hand(w.m)
    ensures t < |NextWorld(w, act).tasks| && Has(NextWorld(w, act).tasks[t], c)
  {
  }

  // ---- What an action changes for the program ----

  /** What the function of `rcu` has returned. */
  function Used(act: Action): set<nat> {
    if act.Computed? then {act.k} else {}
  }

  ghost function ResultOf(w: World, w': World, t: nat): set<nat>
    requires t < |w.tasks|
  {
    if Ends(w, w', t) && w.tasks[t].Last? then {w.tasks[t].d} else {}
  }

  lemma TakenAfter(w: World, act: Action, t: nat, c: nat)
    requires WorldInv(w) && CanAct(w, act) && InRcu(w, act, t)
    ensures var w' := NextWorld(w, act); t < |w'.tasks|
    ensures Taken(NextWorld(w, act), c) <==>
      Has(NextWorld(w, act).tasks[t], c) || (Taken(w, c) && !Has(w.tasks[t], c))
  {
    var w' := NextWorld(w, act);
    StepTask(w, act, t);
    forall u: nat | u < |w.tasks| && u != t ensures w'.tasks[u] == w.tasks[u] { StepTask(w, act, u); }
    if Taken(w, c) && !Has(w.tasks[t], c) {
      var u: nat :| u < |w.tasks| && Has(w.tasks[u], c);
      assert Has(w'.tasks[u], c);
    }
    if Taken(w', c) && !Has(w'.tasks[t], c) {
      var u: nat :| u < |w'.tasks| && Has(w'.tasks[u], c);
      assert Has(w.tasks[u], c);
    }
  }

  lemma StillFree(w: World, act: Action, t: nat, c: nat)
    requires WorldInv(w) && CanAct(w, act) && InRcu(w, act, t) && c in FreeHand(w) && c !in Used(act)
    ensures c in FreeHand(NextWorld(w, act))
  {
    assert TaskOk(w, t) && (Has(w.tasks[t], c) ==> Taken(w, c));
    TakenAfter(w, act, t, c);
    MoverTask(w, act, t);
    if Names(StepOf(w, act), c) { NamedIsHad(w, act, t, c); }
    StepClaimKept(w.m, StepOf(w, act), c);
    DoneGrows(w, act);
  }

  /** An action of `rcu` names only claims that it has, or is given. */
  lemma NamedIsHad(w: World, act: Action, t: nat, c: nat)
    requires CanAct(w, act) && InRcu(w, act, t) && Names(StepOf(w, act), c)
    ensures Has(w.tasks[t], c) || c in Used(act)
  {
  }

  lemma WasFree(w: World, act: Action, t: nat, c: nat)
    requires WorldInv(w) && CanAct(w, act) && InRcu(w, act, t) && c in FreeHand(NextWorld(w, act))
    ensures (c in FreeHand(w) && c !in Used(act)) || c in ResultOf(w, NextWorld(w, act), t)
  {
    TakenAfter(w, act, t, c);
    if c !in Hand(w.m) {
      NewIsHad(w, act, t, c);
    } else if Has(w.tasks[t], c) {
      LetsGo(w, act, t, c);
    } else if c in Used(act) {
      StepAccounted(w.m, StepOf(w, act));
      DoneGrows(w, act);
    }
  }

  /**
   An action of `rcu` takes from the program what the function has returned, and gives it the result with the end of the
   call. All else that the program has stays with it.
   */
  lemma ActAccounted(w: World, act: Action, t: nat)
    requires WorldInv(w) && CanAct(w, act) && InRcu(w, act, t)
    ensures Used(act) <= FreeHand(w) && ResultOf(w, NextWorld(w, act), t) !! FreeHand(w)
    ensures FreeHand(NextWorld(w, act)) == FreeHand(w) - Used(act) + ResultOf(w, NextWorld(w, act), t)
  {
    var w' := NextWorld(w, act);
    assert TaskOk(w, t);
    if w.tasks[t].Last? { assert Has(w.tasks[t], w.tasks[t].d); }
    if Ends(w, w', t) {
      EndsGive(w, act, t);
      TakenAfter(w, act, t, w.tasks[t].d);
    }
    forall c | c in FreeHand(w') ensures c in FreeHand(w) - Used(act) + ResultOf(w, w', t) { WasFree(w, act, t, c); }
    forall c | c in FreeHand(w) - Used(act) ensures c in FreeHand(w') { StillFree(w, act, t, c); }
  }

  // ---- A whole call ----

  /** Action `j`, if it is one of thread `t`, only takes from the program what the function has returned. */
  ghost predicate OnlyUses(ws: seq<World>, acts: seq<Action>, j: nat, t: nat) {
    && |ws| == |acts| + 1 && j < |acts|
    && (Mover(ws[j], acts[j]) == t ==> FreeHand(ws[j + 1]) == FreeHand(ws[j]) - Used(acts[j]))
  }

  /** What thread `t` lets go of with action `j` is spent. */
  ghost predicate Releases(ws: seq<World>, acts: seq<Action>, j: nat, t: nat) {
    && |ws| == |acts| + 1 && j < |acts| && t < |ws[j].tasks| && t < |ws[j + 1].tasks|
    && forall c: nat :: Has(ws[j].tasks[t], c) && !Has(ws[j + 1].tasks[t], c) ==> IsSpent(ws[j + 1].m, c)
  }

  lemma StaysAccounted(ws: seq<World>, acts: seq<Action>, j: nat, t: nat)
    requires IsWorldRun(ws, acts) && j < |acts| && t < |ws[j].tasks| && t < |ws[j + 1].tasks|
    requires (acts[j].Plain? ==> !ws[j].tasks[t].NoRcu?) && !ws[j + 1].tasks[t].NoRcu?
    ensures OnlyUses(ws, acts, j, t) && Releases(ws, acts, j, t)
    ensures !ws[j].tasks[t].NoRcu? ==> ws[j + 1].tasks[t].a == ws[j].tasks[t].a
  {
    WorldRunsInv(ws, acts, j);
    assert ActAt(ws, acts, j);
    StepTask(ws[j], acts[j], t);
    if Mover(ws[j], acts[j]) == t {
      ActAccounted(ws[j], acts[j], t);
      forall c: nat | Has(ws[j].tasks[t], c) && !Has(ws[j + 1].tasks[t], c) ensures IsSpent(ws[j + 1].m, c) {
        LetsGo(ws[j], acts[j], t, c);
      }
    }
  }

  lemma {:induction false} StaysOn(ws: seq<World>, acts: seq<Action>, i: nat, k: nat, t: nat, a: nat)
    requires IsWorldRun(ws, acts) && i < k < |ws| && acts[i] == Begin(t, a)
    requires forall j :: i < j <= k ==> t < |ws[j].tasks| && !ws[j].tasks[t].NoRcu?
    ensures ws[k].tasks[t].a == a
  {
    assert ActAt(ws, acts, i);
    if i + 1 < k {
      StaysOn(ws, acts, i, k - 1, t, a);
      StaysAccounted(ws, acts, k - 1, t);
    }
  }

  /**
   `rcu` over a whole call: with its last action the program gets one claim, owned and on the object that the exchange
   has replaced, which is alive. All actions before that take from the program what the function returns, and neither
   give nor take anything else; and every guard and count that the call has had is spent when it lets go of it.
   */
  lemma RcuHandsOver(ws: seq<World>, acts: seq<Action>, i: nat, k: nat, t: nat, a: nat) returns (g: nat, u: Update)
    requires IsWorldRun(ws, acts) && i < k < |acts| && acts[i] == Begin(t, a)
    requires forall j :: i < j <= k ==> t < |ws[j].tasks| && !ws[j].tasks[t].NoRcu?
    requires t < |ws[k + 1].tasks| && ws[k + 1].tasks[t].NoRcu?
    ensures forall j: nat :: i <= j < k ==> OnlyUses(ws, acts, j, t) && Releases(ws, acts, j, t)
    ensures g !in FreeHand(ws[k]) && FreeHand(ws[k + 1]) == FreeHand(ws[k]) + {g}
    ensures ws[k + 1].m.book.claims[g].kind.Owned? && ws[k + 1].m.book.claims[g].ptr == u.src
    ensures u.src < |ws[k + 1].m.book.cnt| && ws[k + 1].m.book.cnt[u.src] >= 1
    ensures ws[k + 1].done == ws[k].done + [Finished(t, a, u)]
    ensures forall c: nat :: Has(ws[k].tasks[t], c) && c != g ==> IsSpent(ws[k + 1].m, c)
  {
    assert ActAt(ws, acts, i);
    forall j: nat | i <= j < k ensures OnlyUses(ws, acts, j, t) && Releases(ws, acts, j, t) {
      StaysAccounted(ws, acts, j, t);
    }
    WorldRunsInv(ws, acts, k);
    WorldRunsInv(ws, acts, k + 1);
    assert ActAt(ws, acts, k);
    StaysOn(ws, acts, i, k, t, a);
    g, u := RcuReturns(ws[k], acts[k], t);
    Safety.ReachedIsAlive(ws[k + 1].m, g);
  }

  lemma RcuReturns(w: World, act: Action, t: nat) returns (g: nat, u: Update)
    requires WorldInv(w) && CanAct(w, act) && Ends(w, NextWorld(w, act), t)
    ensures var w' := NextWorld(w, act);
      && g !in FreeHand(w) && FreeHand(w') == FreeHand(w) + {g} && g in Hand(w'.m)
      && w'.m.book.claims[g].kind.Owned? && w'.m.book.claims[g].ptr == u.src
      && w.tasks[t].Last? && w'.done == w.done + [Finished(t, w.tasks[t].a, u)]
      && (forall c: nat :: Has(w.tasks[t], c) && c != g ==> IsSpent(w'.m, c))
  {
    StepTask(w, act, t);
    EndsGive(w, act, t);
    ActAccounted(w, act, t);
    g, u := w.tasks[t].d, w.tasks[t].u;
  }

  // ---- A missed exchange ----

  /** After a miss the loop goes on with the guard that `compare_and_swap` has returned. */
  lemma MissGoesOn(w: World, act: Action, t: nat)
    requires WorldInv(w) && CanAct(w, act) && t < |w.tasks| && w.tasks[t].Exchange?
    requires t < |NextWorld(w, act).tasks| && NextWorld(w, act).tasks[t].Again?
    ensures var r, r', w' := w.tasks[t], NextWorld(w, act).tasks[t], NextWorld(w, act);
      && w'.m.events == w.m.events + [CasReturned(t, r.a, r.src, r.neu, r'.src, None)] && r'.src != r.src
      && r'.a == r.a && r'.c == r.c
  {
    StepTask(w, act, t);
    assert TaskOk(w, t);
    var r := w.tasks[t];
    MissIsRun(w, act, t);
    OwnCallStep(w.m, Run(t), t, r.a, r.src, r.neu);
    VerdictIsRight(w.m, t, r.a, r.src, r.neu);
    MissEvent(w.m, t, r.a, r.src, r.neu);
  }

  lemma MissIsRun(w: World, act: Action, t: nat)
    requires |w.tasks| == |w.m.threads| && CanAct(w, act) && t < |w.tasks| && w.tasks[t].Exchange? && TaskOk(w, t)
    requires Mover(w, act) == t && t < |NextWorld(w, act).tasks| && NextWorld(w, act).tasks[t].Again?
    ensures act == Plain(Run(t)) && t < |RunThread(w.m, t).threads| && RunThread(w.m, t).threads[t].op.Ready?
  {
  }

  lemma MissEvent(s: State, t: nat, a: nat, cur: Ptr, neu: Ptr)
    requires Inv(s) && CanRun(s, t) && InCall(s.threads[t].op, a, cur, neu) && t < |RunThread(s, t).threads|
    requires RunThread(s, t).threads[t].op.Ready? && PrevOf(s.threads[t].op) < |s.book.claims|
    requires s.book.claims[PrevOf(s.threads[t].op)].ptr != cur
    ensures RunThread(s, t).events ==
      s.events + [CasReturned(t, a, cur, neu, s.book.claims[PrevOf(s.threads[t].op)].ptr, None)]
  {
    BeforeReturn(s, t, a, cur, neu);
    assert WriterOk(s, t);
    if s.threads[t].op.Pay? { PaidReturns(s, t); } else { MissReturns(s, t); }
  }

  /** While the old guard is dropped, the loop keeps the new one, and then goes on with it. */
  lemma AgainGoesOn(w: World, act: Action, t: nat)
    requires WorldInv(w) && CanAct(w, act) && t < |w.tasks| && w.tasks[t].Again? && t < |NextWorld(w, act).tasks|
    ensures var r, r' := w.tasks[t], NextWorld(w, act).tasks[t]; r' == r || r' == Compute(r.a, r.g, r.src)
  {
    StepTask(w, act, t);
    assert TaskOk(w, t);
  }

  lemma RunMisses(ws: seq<World>, acts: seq<Action>, j: nat, t: nat)
    requires IsWorldRun(ws, acts) && j < |acts| && t < |ws[j].tasks| && ws[j].tasks[t].Exchange?
    requires t < |ws[j + 1].tasks| && ws[j + 1].tasks[t].Again?
    ensures var r, r' := ws[j].tasks[t], ws[j + 1].tasks[t];
      && ws[j + 1].m.events == ws[j].m.events + [CasReturned(t, r.a, r.src, r.neu, r'.src, None)]
      && r'.src != r.src && r'.a == r.a
  {
    WorldRunsInv(ws, acts, j);
    assert ActAt(ws, acts, j);
    MissGoesOn(ws[j], acts[j], t);
  }

  lemma RunGoesOn(ws: seq<World>, acts: seq<Action>, j: nat, t: nat)
    requires IsWorldRun(ws, acts) && j < |acts| && t < |ws[j].tasks| && ws[j].tasks[t].Again?
    requires t < |ws[j + 1].tasks|
    ensures var r, r' := ws[j].tasks[t], ws[j + 1].tasks[t]; r' == r || r' == Compute(r.a, r.g, r.src)
  {
    WorldRunsInv(ws, acts, j);
    assert ActAt(ws, acts, j);
    AgainGoesOn(ws[j], acts[j], t);
  }

  lemma {:induction false} AgainChain(ws: seq<World>, acts: seq<Action>, i: nat, k: nat, t: nat)
    requires IsWorldRun(ws, acts) && i <= k < |ws|
    requires forall m :: i <= m <= k ==> t < |ws[m].tasks| && ws[m].tasks[t].Again?
    ensures ws[k].tasks[t] == ws[i].tasks[t]
    decreases k
  {
    if i < k {
      AgainChain(ws, acts, i, k - 1, t);
      RunGoesOn(ws, acts, k - 1, t);
    }
  }

  /**
   A round of `rcu` whose exchange misses with action `j`: the next round computes from just what `compare_and_swap` has
   returned, which is not what this one has computed from.
   */
  lemma NextRoundIsNewer(ws: seq<World>, acts: seq<Action>, j: nat, k: nat, t: nat)
    requires IsWorldRun(ws, acts) && j + 1 < k < |ws| && t < |ws[j].tasks| && ws[j].tasks[t].Exchange?
    requires forall m :: j < m < k ==> t < |ws[m].tasks| && ws[m].tasks[t].Again?
    requires t < |ws[k].tasks| && ws[k].tasks[t].Compute?
    ensures var r, r' := ws[j].tasks[t], ws[k].tasks[t];
      && ws[j + 1].m.events == ws[j].m.events + [CasReturned(t, r.a, r.src, r.neu, r'.src, None)]
      && r'.src != r.src && r'.a == r.a
  {
    RunMisses(ws, acts, j, t);
    AgainChain(ws, acts, j + 1, k - 1, t);
    RunGoesOn(ws, acts, k - 1, t);
  }
}
