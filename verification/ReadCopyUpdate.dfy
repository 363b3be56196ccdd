/**
 `ArcSwapAny::rcu` on top of the protocol machine. Each thread may run the loop of `rcu`; everything it does to shared
 memory is a step of the machine: a load, `compare_and_swap`, and the steps on its guards. What the function returns is
 up to the program, so the machine covers every function; `made` records from what it has computed what.
 */
module ReadCopyUpdate {
  import opened Ledger
  import opened Machine
  import opened Ownership
  import opened Protocol
  import opened History
  import opened Invariant
  import opened Exchanges
  import opened Handles
  import Linearizability
  import Safety

  /** What a successful exchange has stored: `neu` over entry `at`, which was `src`. */
  datatype Update = Update(src: Ptr, neu: Ptr, at: nat)

  /** Where a thread is inside `rcu`; `c` is the guard `cur`, `g` the guard `prev`. */
  datatype Rcu =
    | NoRcu
    | First(a: nat)                                     // in the first load
    | Compute(a: nat, c: nat, src: Ptr)                 // in the function, which looks at the guard's object
    | Exchange(a: nat, c: nat, src: Ptr, neu: Ptr)      // in `compare_and_swap`
    | Again(a: nat, c: nat, g: nat, src: Ptr)           // missed: drops `cur`, goes on with `prev`
    | Own(a: nat, c: nat, g: nat, u: Update)            // stored: about to increment the count for `prev`
    | PayPrev(a: nat, c: nat, g: nat, d: nat, u: Update) // about to return the debt of `prev`
    | DecPrev(a: nat, c: nat, g: nat, d: nat, u: Update) // about to release what was paid twice
    | Last(a: nat, c: nat, d: nat, u: Update)           // drops `cur` and returns `d`

  /** A call that has returned. */
  datatype Finished = Finished(t: nat, a: nat, u: Update)

  datatype World = World(m: State, tasks: seq<Rcu>, made: set<(Ptr, Ptr)>, done: seq<Finished>)

  datatype Action =
    | Plain(step: Step)           // any step of the machine outside of `rcu`, or the next one inside a call of `rcu`
    | Begin(t: nat, a: nat)       // `rcu` is called
    | Computed(t: nat, k: nat)    // the function returns the owned value `k`
    | Tail(t: nat)                // the next step on the guards of `rcu`

  /** Claims that belong to a running `rcu`. */
  predicate Has(r: Rcu, c: nat) {
    match r
    case NoRcu => false
    case First(_) => false
    case Compute(_, x, _) => c == x
    case Exchange(_, x, _, _) => c == x
    case Again(_, x, g, _) => c == x || c == g
    case Own(_, x, g, _) => c == x || c == g
    case PayPrev(_, x, g, d, _) => c == x || c == g || c == d
    case DecPrev(_, x, g, d, _) => c == x || c == g || c == d
    case Last(_, x, d, _) => c == x || c == d
  }

  ghost predicate Taken(w: World, c: nat) {
    exists t: nat :: t < |w.tasks| && Has(w.tasks[t], c)
  }

  predicate InTail(r: Rcu) {
    r.Again? || r.Own? || r.PayPrev? || r.DecPrev? || r.Last?
  }

  /** The step on guards that comes next. */
  function TailStep(b: Book, r: Rcu): Step
    requires InTail(r)
  {
    match r
    case Again(_, c, _, _) => DropStep(b, c)
    case Own(_, _, g, _) => Clone(g)
    case PayPrev(_, _, g, _, _) => ReturnDebt(g)
    case DecPrev(_, _, g, _, _) => Release(g)
    case Last(_, c, _, _) => DropStep(b, c)
  }

  /** The next step of the destructor of guard `c`. */
  function DropStep(b: Book, c: nat): Step {
    if c < |b.claims| && b.claims[c].kind.Debt? then ReturnDebt(c) else Release(c)
  }

  /** Whether that step is the last one: the debt could be returned, or there was none. */
  predicate DropEnds(b: Book, c: nat) {
    c < |b.claims| && b.claims[c].kind.Debt? ==> Pays(b, b.claims[c].kind.at, b.claims[c].ptr)
  }

  function StepOf(w: World, act: Action): Step {
    match act
    case Plain(step) => step
    case Begin(t, a) => LoadFrom(t, a)
    case Computed(t, k) =>
      if t < |w.tasks| && w.tasks[t].Compute? then CompareAndSwap(t, w.tasks[t].a, w.tasks[t].src, k) else NewObject
    case Tail(t) => if t < |w.tasks| && InTail(w.tasks[t]) then TailStep(w.m.book, w.tasks[t]) else NewObject
  }

  /** The program around may not touch what belongs to a running `rcu`, nor call anything from its thread. */
  ghost predicate Allowed(w: World, step: Step) {
    && (forall c: nat :: Names(step, c) ==> !Taken(w, c))
    && (Begins(step) ==> step.t < |w.tasks| && w.tasks[step.t].NoRcu?)
  }

  ghost predicate CanAct(w: World, act: Action) {
    && Enabled(w.m, StepOf(w, act))
    && match act
       case Plain(step) => Allowed(w, step)
       case Begin(t, _) => t < |w.tasks| && w.tasks[t].NoRcu?
       case Computed(t, k) => t < |w.tasks| && w.tasks[t].Compute? && !Taken(w, k)
       case Tail(t) => t < |w.tasks| && InTail(w.tasks[t])
  }

  /** The guard that `compare_and_swap` is about to return. */
  function PrevOf(o: Op): nat {
    if o.CasMiss? then o.guard else if o.Pay? && o.after.RetGuard? then o.after.guard else 0
  }

  /** After `compare_and_swap`: the loop ends if `prev` and `cur` are the same pointer. */
  function Verdict(r: Rcu, o: Op, b: Book): Rcu
    requires r.Exchange?
  {
    var g := PrevOf(o);
    if g >= |b.claims| then r else
    if b.claims[g].ptr == r.src then
      var u := Update(r.src, r.neu, if o.Pay? then o.at else 0);
      if b.claims[g].kind.Debt? then Own(r.a, r.c, g, u) else Last(r.a, r.c, g, u)
    else Again(r.a, r.c, g, b.claims[g].ptr)
  }

  /** A step of the machine inside a call that `rcu` has made. */
  function RanTask(r: Rcu, s: State, s': State, t: nat): Rcu
    requires t < |s.threads|
  {
    if r.First? && AtDone(s, t) then Compute(r.a, s.threads[t].load.pc.c, s.threads[t].load.pc.ptr)
    else if r.Exchange? && t < |s'.threads| && s'.threads[t].op.Ready? then Verdict(r, s.threads[t].op, s.book)
    else r
  }

  function TailTask(r: Rcu, b: Book): Rcu
    requires InTail(r)
  {
    match r
    case Again(a, c, g, src) => if DropEnds(b, c) then Compute(a, g, src) else r
    case Own(a, c, g, u) => PayPrev(a, c, g, |b.claims|, u)
    case PayPrev(a, c, g, d, u) =>
      if g < |b.claims| && b.claims[g].kind.Debt? && Pays(b, b.claims[g].kind.at, b.claims[g].ptr) then Last(a, c, d, u)
      else DecPrev(a, c, g, d, u)
    case DecPrev(a, c, _, d, u) => Last(a, c, d, u)
    case Last(_, c, _, _) => if DropEnds(b, c) then NoRcu else r
  }

  ghost function NextWorld(w: World, act: Action): World
    requires CanAct(w, act) && |w.tasks| == |w.m.threads|
  {
    var m' := Next(w.m, StepOf(w, act));
    var w' := w.(m := m');
    match act
    case Plain(step) =>
      if step.Run? || step.SpuriousFail? then
        w'.(tasks := w.tasks[step.t := RanTask(w.tasks[step.t], w.m, m', step.t)])
      else w'
    case Begin(t, a) => w'.(tasks := w.tasks[t := First(a)])
    case Computed(t, k) =>
      var r, neu := w.tasks[t], w.m.book.claims[k].ptr;
      w'.(tasks := w.tasks[t := Exchange(r.a, r.c, r.src, neu)], made := w.made + {(neu, r.src)})
    case Tail(t) =>
      var r := w.tasks[t];
      w'.(tasks := w.tasks[t := TailTask(r, w.m.book)],
          done := if r.Last? && TailTask(r, w.m.book).NoRcu? then w.done + [Finished(t, r.a, r.u)] else w.done)
  }

  ghost predicate InitWorld(w: World) {
    && Init(w.m) && |w.tasks| == |w.m.threads| && w.made == {} && w.done == []
    && forall t :: 0 <= t < |w.tasks| ==> w.tasks[t].NoRcu?
  }

  ghost predicate ActAt(ws: seq<World>, acts: seq<Action>, i: nat)
    requires |ws| == |acts| + 1 && i < |acts|
  {
    && CanAct(ws[i], acts[i]) && |ws[i].tasks| == |ws[i].m.threads|
    && ws[i + 1] == NextWorld(ws[i], acts[i])
  }

  /** A run of the protocol in which some threads run `rcu`. */
  ghost predicate IsWorldRun(ws: seq<World>, acts: seq<Action>) {
    && |ws| == |acts| + 1 && InitWorld(ws[0])
    && forall i :: 0 <= i < |acts| ==> ActAt(ws, acts, i)
  }

  // ---- The invariant ----

  /** The program holds claim `c` on `p`, as a guard does. */
  ghost predicate Guard(s: State, c: nat, p: Ptr) {
    OfProgram(s, c) && s.book.claims[c].ptr == p && Fits(s.book.claims[c].kind, WGuard)
  }

  ghost predicate Held(s: State, c: nat) {
    OfProgram(s, c) && Fits(s.book.claims[c].kind, WGuard)
  }

  /** The update stands in the log, directly behind what it was computed from. */
  ghost predicate Stands(w: World, a: nat, u: Update) {
    InLog(w.m, a, 0, u.at, u.src) && Follows(w.m, a, u.at, Write(u.neu, Some(u.src))) && (u.neu, u.src) in w.made
  }

  ghost predicate TaskOk(w: World, t: nat)
    requires t < |w.tasks| && t < |w.m.threads|
  {
    var s, th := w.m, w.m.threads[t];
    match w.tasks[t]
    case NoRcu => true
    case First(a) => th.op.UserLoad? && th.load.Loading? && th.load.a == a
    case Compute(a, c, src) => IsReady(s, t) && Guard(s, c, src)
    case Exchange(a, c, src, neu) => InCall(th.op, a, src, neu) && Guard(s, c, src) && (neu, src) in w.made
    case Again(a, c, g, src) => IsReady(s, t) && Held(s, c) && Guard(s, g, src) && c != g
    case Own(a, c, g, u) =>
      IsReady(s, t) && Held(s, c) && Guard(s, g, u.src) && s.book.claims[g].kind.Debt? && c != g && Stands(w, a, u)
    case PayPrev(a, c, g, d, u) =>
      && IsReady(s, t) && Held(s, c) && Guard(s, g, u.src) && Guard(s, d, u.src) && c != g && c != d && g != d
      && s.book.claims[g].kind.Debt? && s.book.claims[d].kind.Owned? && Stands(w, a, u)
    case DecPrev(a, c, g, d, u) =>
      && IsReady(s, t) && Held(s, c) && Guard(s, g, u.src) && Guard(s, d, u.src) && c != g && c != d && g != d
      && s.book.claims[g].kind.Owned? && s.book.claims[d].kind.Owned? && Stands(w, a, u)
    case Last(a, c, d, u) =>
      IsReady(s, t) && Held(s, c) && Guard(s, d, u.src) && c != d && s.book.claims[d].kind.Owned? && Stands(w, a, u)
  }

  ghost predicate TasksApart(w: World) {
    forall t: nat, u: nat, c: nat :: t < |w.tasks| && u < |w.tasks| && Has(w.tasks[t], c) && Has(w.tasks[u], c) ==>
      t == u
  }

  ghost predicate WorldInv(w: World) {
    && Inv(w.m) && |w.tasks| == |w.m.threads| && TasksApart(w)
    && (forall t: nat :: t < |w.tasks| ==> TaskOk(w, t))
    && (forall i: nat :: i < |w.done| ==> Stands(w, w.done[i].a, w.done[i].u))
  }

  // ---- Every action keeps it ----

  /** The thread whose `rcu` the action moves on, if any. */
  function Mover(w: World, act: Action): nat {
    match act
    case Plain(step) => if step.Run? || step.SpuriousFail? then step.t else |w.tasks|
    case Begin(t, _) => t
    case Computed(t, _) => t
    case Tail(t) => t
  }

  lemma HasOfProgram(w: World, t: nat, c: nat)
    requires t < |w.tasks| && t < |w.m.threads| && TaskOk(w, t) && Has(w.tasks[t], c)
    ensures OfProgram(w.m, c)
  {
  }

  /** The action leaves the claims of other tasks alone. */
  lemma NotNamed(w: World, act: Action, t: nat, c: nat)
    requires TasksApart(w) && CanAct(w, act) && t < |w.tasks| && Has(w.tasks[t], c)
    requires act.Plain? || Mover(w, act) != t
    ensures !Names(StepOf(w, act), c)
  {
    assert Taken(w, c);
    if act.Tail? {
      assert Names(StepOf(w, act), c) ==> Has(w.tasks[act.t], c);
    }
  }

  lemma TaskKept(w: World, w': World, t: nat)
    requires t < |w.tasks| && t < |w.m.threads| && t < |w'.tasks| && t < |w'.m.threads| && TaskOk(w, t)
    requires w'.tasks[t] == w.tasks[t] && w'.m.threads[t] == w.m.threads[t] && |w'.m.nodes| == |w.m.nodes|
    requires LogsGrow(w.m, w'.m) && w.made <= w'.made
    requires forall c: nat :: Has(w.tasks[t], c) ==> ClaimKept(w.m, w'.m, c)
    ensures TaskOk(w', t)
  {
    assert forall c: nat :: Has(w.tasks[t], c) ==> c < |w.m.book.claims|;
    match w.tasks[t]
    case NoRcu =>
    case First(_) =>
    case Compute(_, c, _) => assert Has(w.tasks[t], c);
    case Exchange(_, c, _, _) => assert Has(w.tasks[t], c);
    case Again(_, c, g, _) => assert Has(w.tasks[t], c) && Has(w.tasks[t], g);
    case Own(_, c, g, _) => assert Has(w.tasks[t], c) && Has(w.tasks[t], g);
    case PayPrev(_, c, g, d, _) => assert Has(w.tasks[t], c) && Has(w.tasks[t], g) && Has(w.tasks[t], d);
    case DecPrev(_, c, g, d, _) => assert Has(w.tasks[t], c) && Has(w.tasks[t], g) && Has(w.tasks[t], d);
    case Last(_, c, d, _) => assert Has(w.tasks[t], c) && Has(w.tasks[t], d);
  }

  /** What a step of the machine does, as far as tasks are concerned. */
  lemma MachineStep(s: State, step: Step)
    requires Inv(s) && Enabled(s, step)
    ensures Inv(Next(s, step)) && LogsGrow(s, Next(s, step)) && |Next(s, step).threads| == |s.threads|
    ensures |Next(s, step).nodes| == |s.nodes|
  {
    StepInv(s, step);
    Linearizability.StepOneWrite(s, step);
    StepCredits(s, step);
  }

  lemma TaskClaimsKept(w: World, act: Action, t: nat)
    requires WorldInv(w) && CanAct(w, act) && t < |w.tasks| && (act.Plain? || Mover(w, act) != t)
    ensures forall c: nat :: Has(w.tasks[t], c) ==> ClaimKept(w.m, Next(w.m, StepOf(w, act)), c)
  {
    assert TaskOk(w, t);
    forall c: nat | Has(w.tasks[t], c) ensures ClaimKept(w.m, Next(w.m, StepOf(w, act)), c) {
      HasOfProgram(w, t, c);
      NotNamed(w, act, t, c);
      StepClaimKept(w.m, StepOf(w, act), c);
    }
  }

  lemma OtherTask(w: World, act: Action, t: nat)
    requires WorldInv(w) && CanAct(w, act) && t < |w.tasks| && Mover(w, act) != t && Actor(w.m, StepOf(w, act)) != t
    ensures var w' := NextWorld(w, act);
      |w'.tasks| == |w'.m.threads| == |w.tasks| && w'.tasks[t] == w.tasks[t] && TaskOk(w', t)
  {
    MachineStep(w.m, StepOf(w, act));
    OtherActor(w.m, StepOf(w, act), t);
    TaskClaimsKept(w, act, t);
    assert TaskOk(w, t);
    TaskKept(w, NextWorld(w, act), t);
  }

  // ---- The thread that acts ----

  lemma BeginTask(w: World, t: nat, a: nat)
    requires WorldInv(w) && CanAct(w, Begin(t, a))
    ensures var w' := NextWorld(w, Begin(t, a)); |w'.tasks| == |w'.m.threads| == |w.tasks| && TaskOk(w', t)
  {
  }

  lemma ComputedTask(w: World, t: nat, k: nat)
    requires WorldInv(w) && CanAct(w, Computed(t, k))
    ensures var w' := NextWorld(w, Computed(t, k)); |w'.tasks| == |w'.m.threads| == |w.tasks| && TaskOk(w', t)
  {
    assert TaskOk(w, t) && Has(w.tasks[t], w.tasks[t].c);
    assert Taken(w, w.tasks[t].c);
  }

  /** The first load goes on, or hands its guard to the loop. */
  lemma FirstTask(w: World, t: nat)
    requires WorldInv(w) && CanAct(w, Plain(Run(t))) && w.tasks[t].First?
    ensures var w' := NextWorld(w, Plain(Run(t))); |w'.tasks| == |w'.m.threads| == |w.tasks| && TaskOk(w', t)
    ensures forall c: nat :: Has(NextWorld(w, Plain(Run(t))).tasks[t], c) ==> !OfProgram(w.m, c)
  {
    var s := w.m;
    assert TaskOk(w, t) && ThreadOk(s, t);
    if s.threads[t].load.pc.Done? {
      Served(s, t, LoadClaim);
    } else {
      LoadStepMoves(s, t);
    }
  }

  /** The guard that `compare_and_swap` returns goes to the program as it is. */
  ghost predicate GivesGuard(s: State, s': State, t: nat, g: nat) {
    && g < |s.book.claims| && s.book.claims[g].holder == Thread(t, OldGuard) && Fits(s.book.claims[g].kind, WGuard)
    && g < |s'.book.claims| && s'.book.claims[g] == s.book.claims[g].(holder := User)
  }

  lemma PaidReturns(s: State, t: nat)
    requires AllHeld(s) && CanPay(s, t) && s.threads[t].load.NoLoad? && WriterOk(s, t)
    requires s.threads[t].op.pc.PayRet? && s.threads[t].op.after.RetGuard?
    ensures var o := s.threads[t].op;
      && GivesGuard(s, RunPay(s, t), t, PrevOf(o)) && s.book.claims[PrevOf(o)].ptr == o.after.cur == o.gone
      && InLog(s, o.a, 0, o.at, o.gone) && Follows(s, o.a, o.at, Write(o.after.neu, Some(o.gone)))
  {
    Served(s, t, Val);
    Served(s, t, OldGuard);
  }

  lemma MissReturns(s: State, t: nat)
    requires AllHeld(s) && CanCas(s, t) && s.threads[t].load.NoLoad? && WriterOk(s, t) && s.threads[t].op.CasMiss?
    ensures var o := s.threads[t].op;
      GivesGuard(s, RunCas(s, t), t, PrevOf(o)) && s.book.claims[PrevOf(o)].ptr == o.gptr != o.cur
  {
    Served(s, t, NewVal);
    Served(s, t, OldGuard);
  }

  /** What `compare_and_swap` looks like just before it returns. */
  lemma BeforeReturn(s: State, t: nat, a: nat, cur: Ptr, neu: Ptr)
    requires Inv(s) && CanRun(s, t) && InCall(s.threads[t].op, a, cur, neu) && t < |RunThread(s, t).threads|
    requires RunThread(s, t).threads[t].op.Ready?
    ensures var o := s.threads[t].op; s.threads[t].load.NoLoad? && (o.CasMiss? || (o.Pay? && o.pc.PayRet?))
    ensures RunThread(s, t).threads[t].load.NoLoad?
  {
    assert ThreadOk(s, t);
    OwnCallStep(s, Run(t), t, a, cur, neu);
    if s.threads[t].load.Loading? && !s.threads[t].load.pc.Done? { LoadStepMoves(s, t); }
  }

  ghost predicate GoodVerdict(s: State, s': State, t: nat, a: nat, cur: Ptr, neu: Ptr)
    requires t < |s.threads|
  {
    var o, g := s.threads[t].op, PrevOf(s.threads[t].op);
    && GivesGuard(s, s', t, g) && (s.book.claims[g].ptr == cur <==> o.Pay?)
    && (o.Pay? ==> InLog(s, a, 0, o.at, cur) && Follows(s, a, o.at, Write(neu, Some(cur))))
  }

  /** The loop's own test, whether `prev` is `cur`, is right: it says whether the exchange has stored the new value. */
  lemma VerdictIsRight(s: State, t: nat, a: nat, cur: Ptr, neu: Ptr)
    requires Inv(s) && CanRun(s, t) && InCall(s.threads[t].op, a, cur, neu) && t < |RunThread(s, t).threads|
    requires RunThread(s, t).threads[t].op.Ready?
    ensures GoodVerdict(s, RunThread(s, t), t, a, cur, neu)
  {
    BeforeReturn(s, t, a, cur, neu);
    assert WriterOk(s, t);
    if s.threads[t].op.Pay? { PaidReturns(s, t); } else { MissReturns(s, t); }
  }

  /** The task after the verdict. */
  lemma VerdictTask(w: World, w': World, t: nat)
    requires t < |w.tasks| && t < |w.m.threads| && t < |w'.tasks| && t < |w'.m.threads| && TaskOk(w, t)
    requires w.tasks[t].Exchange? && w'.tasks[t] == Verdict(w.tasks[t], w.m.threads[t].op, w.m.book)
    requires GoodVerdict(w.m, w'.m, t, w.tasks[t].a, w.tasks[t].src, w.tasks[t].neu)
    requires ClaimKept(w.m, w'.m, w.tasks[t].c) && IsReady(w'.m, t) && LogsGrow(w.m, w'.m) && w.made <= w'.made
    ensures TaskOk(w', t)
    ensures forall c: nat :: Has(w'.tasks[t], c) ==> Has(w.tasks[t], c) || !OfProgram(w.m, c)
  {
  }

  lemma ExchangeEnds(w: World, t: nat)
    requires WorldInv(w) && CanAct(w, Plain(Run(t))) && w.tasks[t].Exchange?
    requires t < |Next(w.m, Run(t)).threads| && Next(w.m, Run(t)).threads[t].op.Ready?
    ensures var w' := NextWorld(w, Plain(Run(t))); |w'.tasks| == |w'.m.threads| == |w.tasks| && TaskOk(w', t)
    ensures forall c: nat :: Has(NextWorld(w, Plain(Run(t))).tasks[t], c) ==> Has(w.tasks[t], c) || !OfProgram(w.m, c)
  {
    var s, r := w.m, w.tasks[t];
    assert TaskOk(w, t) && Has(r, r.c);
    MachineStep(s, Run(t));
    TaskClaimsKept(w, Plain(Run(t)), t);
    BeforeReturn(s, t, r.a, r.src, r.neu);
    VerdictIsRight(s, t, r.a, r.src, r.neu);
    VerdictTask(w, NextWorld(w, Plain(Run(t))), t);
  }

  lemma ExchangeTask(w: World, step: Step, t: nat)
    requires WorldInv(w) && CanAct(w, Plain(step)) && (step.Run? || step.SpuriousFail?) && step.t == t
    requires w.tasks[t].Exchange?
    ensures var w' := NextWorld(w, Plain(step)); |w'.tasks| == |w'.m.threads| == |w.tasks| && TaskOk(w', t)
    ensures forall c: nat :: Has(NextWorld(w, Plain(step)).tasks[t], c) ==> Has(w.tasks[t], c) || !OfProgram(w.m, c)
  {
    var s, r := w.m, w.tasks[t];
    assert TaskOk(w, t) && Has(r, r.c);
    OwnCallStep(s, step, t, r.a, r.src, r.neu);
    if Next(s, step).threads[t].op.Ready? {
      assert step.Run?;
      ExchangeEnds(w, t);
    } else {
      MachineStep(s, step);
      TaskClaimsKept(w, Plain(step), t);
    }
  }

  /** What a step on claim `c` leaves of another claim of the program. */
  lemma OtherClaimKept(s: State, step: Step, c: nat)
    requires Enabled(s, step) && (step.Clone? || step.ReturnDebt? || step.Release?) && OfProgram(s, c)
    requires !Names(step, c)
    ensures ClaimKept(s, Next(s, step), c)
    ensures Next(s, step).threads == s.threads && Next(s, step).nodes == s.nodes && Next(s, step).storages == s.storages
  {
  }

  /** A guard after one step of its destructor, unless that was the last. */
  lemma DropGoesOn(s: State, c: nat)
    requires Held(s, c) && Enabled(s, DropStep(s.book, c)) && !DropEnds(s.book, c)
    ensures Held(Next(s, DropStep(s.book, c)), c)
  {
  }

  lemma DropTask(w: World, t: nat)
    requires |w.tasks| == |w.m.threads| && CanAct(w, Tail(t)) && TaskOk(w, t) && (w.tasks[t].Again? || w.tasks[t].Last?)
    ensures var w' := NextWorld(w, Tail(t)); |w'.tasks| == |w'.m.threads| == |w.tasks| && TaskOk(w', t)
  {
    var s, r, step := w.m, w.tasks[t], StepOf(w, Tail(t));
    OtherClaimKept(s, step, if r.Again? then r.g else r.d);
    if !DropEnds(s.book, r.c) { DropGoesOn(s, r.c); }
  }

  lemma IntoTask(w: World, t: nat)
    requires |w.tasks| == |w.m.threads| && CanAct(w, Tail(t)) && TaskOk(w, t)
    requires w.tasks[t].Own? || w.tasks[t].PayPrev? || w.tasks[t].DecPrev?
    ensures var w' := NextWorld(w, Tail(t)); |w'.tasks| == |w'.m.threads| == |w.tasks| && TaskOk(w', t)
  {
    var s, r, step := w.m, w.tasks[t], StepOf(w, Tail(t));
    OtherClaimKept(s, step, r.c);
    if r.Own? { OtherClaimKept(s, step, r.g); } else { OtherClaimKept(s, step, r.d); }
  }

  lemma TailHas(w: World, t: nat, c: nat)
    requires t < |w.tasks| && InTail(w.tasks[t]) && Has(TailTask(w.tasks[t], w.m.book), c)
    ensures Has(w.tasks[t], c) || !OfProgram(w.m, c)
  {
  }

  // ---- All tasks ----

  /** The task of a thread that moves, and the claims that are new to it. */
  lemma MoverTask(w: World, act: Action, t: nat)
    requires WorldInv(w) && CanAct(w, act) && Mover(w, act) == t && t < |w.tasks|
    ensures var w' := NextWorld(w, act); |w'.tasks| == |w'.m.threads| == |w.tasks| && TaskOk(w', t)
    ensures forall c: nat :: Has(NextWorld(w, act).tasks[t], c) ==> Has(w.tasks[t], c) || !OfProgram(w.m, c)
  {
    match act
    case Begin(_, a) => BeginTask(w, t, a);
    case Computed(_, k) => ComputedTask(w, t, k);
    case Tail(_) =>
      forall c: nat | Has(NextWorld(w, act).tasks[t], c) ensures Has(w.tasks[t], c) || !OfProgram(w.m, c) {
        TailHas(w, t, c);
      }
      assert TaskOk(w, t);
      if w.tasks[t].Again? || w.tasks[t].Last? { DropTask(w, t); } else { IntoTask(w, t); }
    case Plain(step) =>
      assert TaskOk(w, t) && ThreadOk(w.m, t);
      if w.tasks[t].Exchange? { ExchangeTask(w, step, t); }
      else if w.tasks[t].First? { FirstTask(w, t); }
      else { MachineStep(w.m, step); }
  }

  /** A thread outside of `rcu` that begins something. */
  lemma BeginnerTask(w: World, act: Action, t: nat)
    requires WorldInv(w) && CanAct(w, act) && t < |w.tasks| && Mover(w, act) != t && Actor(w.m, StepOf(w, act)) == t
    ensures w.tasks[t].NoRcu? && NextWorld(w, act).tasks[t] == w.tasks[t]
  {
  }

  lemma StepTask(w: World, act: Action, t: nat)
    requires WorldInv(w) && CanAct(w, act) && t < |w.tasks|
    ensures var w' := NextWorld(w, act); |w'.tasks| == |w'.m.threads| == |w.tasks| && TaskOk(w', t)
    ensures Mover(w, act) != t ==> NextWorld(w, act).tasks[t] == w.tasks[t]
  {
    if Mover(w, act) == t {
      MoverTask(w, act, t);
    } else if Actor(w.m, StepOf(w, act)) == t {
      MachineStep(w.m, StepOf(w, act));
      BeginnerTask(w, act, t);
    } else {
      OtherTask(w, act, t);
    }
  }

  lemma StepApart(w: World, act: Action)
    requires WorldInv(w) && CanAct(w, act)
    ensures TasksApart(NextWorld(w, act))
  {
    var w', m := NextWorld(w, act), Mover(w, act);
    forall t: nat | t < |w.tasks| && t != m ensures w'.tasks[t] == w.tasks[t] && TaskOk(w, t) { StepTask(w, act, t); }
    if m < |w.tasks| { MoverTask(w, act, m); }
    forall t: nat, u: nat, c: nat
      | t < |w'.tasks| && u < |w'.tasks| && Has(w'.tasks[t], c) && Has(w'.tasks[u], c) && t != m
      ensures t == u
    {
      HasOfProgram(w, t, c);
    }
  }

  lemma StepDone(w: World, act: Action)
    requires WorldInv(w) && CanAct(w, act)
    ensures var w' := NextWorld(w, act); forall i: nat :: i < |w'.done| ==> Stands(w', w'.done[i].a, w'.done[i].u)
  {
    var w' := NextWorld(w, act);
    MachineStep(w.m, StepOf(w, act));
    DoneGrows(w, act);
    forall i: nat | i < |w'.done| ensures Stands(w', w'.done[i].a, w'.done[i].u) {
      if i >= |w.done| { assert TaskOk(w, act.t); }
      StandsKept(w, w', w'.done[i].a, w'.done[i].u);
    }
  }

  lemma StandsKept(w: World, w': World, a: nat, u: Update)
    requires Stands(w, a, u) && LogsGrow(w.m, w'.m) && w.made <= w'.made
    ensures Stands(w', a, u)
  {
  }

  /** Calls return one at a time, from their last program point. */
  lemma DoneGrows(w: World, act: Action)
    requires |w.tasks| == |w.m.threads| && CanAct(w, act)
    ensures var w' := NextWorld(w, act);
      && w'.m == Next(w.m, StepOf(w, act)) && w.made <= w'.made
      && (w'.done == w.done || (act.Tail? && w.tasks[act.t].Last? && act.t < |w'.tasks| && w'.tasks[act.t].NoRcu?
          && w'.done == w.done + [Finished(act.t, w.tasks[act.t].a, w.tasks[act.t].u)]))
  {
  }

  lemma StepWorld(w: World, act: Action)
    requires WorldInv(w) && CanAct(w, act)
    ensures WorldInv(NextWorld(w, act))
  {
    MachineStep(w.m, StepOf(w, act));
    StepApart(w, act);
    StepDone(w, act);
    forall t: nat | t < |w.tasks| ensures |NextWorld(w, act).tasks| == |w.tasks| && TaskOk(NextWorld(w, act), t) {
      StepTask(w, act, t);
    }
  }

  lemma {:induction false} WorldRunsInv(ws: seq<World>, acts: seq<Action>, n: nat)
    requires IsWorldRun(ws, acts) && n < |ws|
    ensures WorldInv(ws[n])
  {
    if n == 0 {
      InitInv(ws[0].m);
    } else {
      WorldRunsInv(ws, acts, n - 1);
      assert ActAt(ws, acts, n - 1);
      StepWorld(ws[n - 1], acts[n - 1]);
    }
  }

  // ---- What holds in every run ----

  ghost function Machines(ws: seq<World>): seq<State> {
    seq(|ws|, i requires 0 <= i < |ws| => ws[i].m)
  }

  ghost function StepsOf(ws: seq<World>, acts: seq<Action>): seq<Step>
    requires |ws| == |acts| + 1
  {
    seq(|acts|, i requires 0 <= i < |acts| => StepOf(ws[i], acts[i]))
  }

  /** A run with `rcu` is a run of the protocol: what holds in every run of it holds here. */
  lemma RunsOfTheMachine(ws: seq<World>, acts: seq<Action>)
    requires IsWorldRun(ws, acts)
    ensures IsRun(Machines(ws), StepsOf(ws, acts))
  {
    var run, steps := Machines(ws), StepsOf(ws, acts);
    forall i | 0 <= i < |steps| ensures StepAt(run, steps, i) {
      assert ActAt(ws, acts, i);
      DoneGrows(ws[i], acts[i]);
    }
  }

  /** While the function runs, the object it looks at is alive. */
  lemma FunctionSeesLiveObject(ws: seq<World>, acts: seq<Action>, n: nat, t: nat)
    requires IsWorldRun(ws, acts) && n < |ws| && t < |ws[n].tasks| && ws[n].tasks[t].Compute?
    ensures ws[n].tasks[t].src < |ws[n].m.book.cnt| && ws[n].m.book.cnt[ws[n].tasks[t].src] >= 1
  {
    WorldRunsInv(ws, acts, n);
    assert TaskOk(ws[n], t);
    Safety.ReachedIsAlive(ws[n].m, ws[n].tasks[t].c);
  }

  lemma TailEnabled(w: World, t: nat)
    requires t < |w.tasks| && t < |w.m.threads| && TaskOk(w, t) && InTail(w.tasks[t]) && ClaimsInRange(w.m.book)
    ensures Enabled(w.m, TailStep(w.m.book, w.tasks[t]))
  {
  }

  /** Behind `compare_and_swap`, the loop can always take its next step. */
  lemma TailNeverBlocks(ws: seq<World>, acts: seq<Action>, n: nat, t: nat)
    requires IsWorldRun(ws, acts) && n < |ws| && t < |ws[n].tasks| && InTail(ws[n].tasks[t])
    ensures CanAct(ws[n], Tail(t))
  {
    WorldRunsInv(ws, acts, n);
    assert TaskOk(ws[n], t);
    TailEnabled(ws[n], t);
  }
}
