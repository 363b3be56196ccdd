/**
 The lock-based strategy as a step machine: one storage, one readers-writer lock, any number of threads. A load reads
 and increments under the read lock; a compare-and-swap runs under the write lock; but a swap changes the storage
 outside of the lock, and only then passes through the write lock once.
 */
module LockStrategy {
  import opened Ledger

  /** An operation at the moment it takes effect, with its result. */
  datatype Event =
    | DidLoad(t: nat, got: Ptr)
    | DidSwap(t: nat, neu: Ptr, got: Ptr)
    | DidCas(t: nat, cur: Ptr, neu: Ptr, got: Ptr)

  datatype Call = LoadCall | SwapCall(neu: Ptr) | CasCall(cur: Ptr, neu: Ptr)

  /** History: `start` is the number of events before the call, `e` the operation's own event. */
  datatype Pc =
    | Idle
    | LockRead(start: nat)
    | Read(start: nat)
    | IncRead(start: nat, e: nat, got: Ptr)
    | UnlockRead(start: nat, e: nat, got: Ptr)
    | Swap(start: nat, neu: Ptr)
    | WaitReaders(start: nat, e: nat, neu: Ptr, got: Ptr)
    | PassReaders(start: nat, e: nat, neu: Ptr, got: Ptr)
    | LockCas(start: nat, cur: Ptr, neu: Ptr)
    | TryCas(start: nat, cur: Ptr, neu: Ptr)
    | IncCas(start: nat, e: nat, cur: Ptr, neu: Ptr, got: Ptr)
    | DropNew(start: nat, e: nat, cur: Ptr, neu: Ptr, got: Ptr)
    | UnlockCas(start: nat, e: nat, cur: Ptr, neu: Ptr, got: Ptr)

  /** `user` is what callers own between operations; `trace` is history. */
  datatype State = State(
    ptr: Ptr, cnt: seq<int>, user: multiset<Ptr>,
    readers: set<nat>, writer: Option<nat>,
    threads: seq<Pc>, trace: seq<Event>)

  datatype Step = Begin(t: nat, call: Call) | Run(t: nat) | Create | Clone(p: Ptr) | Discard(p: Ptr)

  predicate CanBegin(s: State, t: nat, call: Call) {
    t < |s.threads| && s.threads[t].Idle? && (call.LoadCall? || call.neu in s.user)
  }

  /** Locks are the only thing a thread waits for. */
  predicate CanRun(s: State, t: nat) {
    && t < |s.threads| && !s.threads[t].Idle?
    && (s.threads[t].LockRead? ==> s.writer.None?)
    && (s.threads[t].WaitReaders? || s.threads[t].LockCas? ==> s.writer.None? && s.readers == {})
  }

  predicate Enabled(s: State, step: Step) {
    match step
    case Begin(t, call) => CanBegin(s, t, call)
    case Run(t) => CanRun(s, t)
    case Create => true
    case Clone(p) => p in s.user
    case Discard(p) => p in s.user
  }

  function At(s: State, t: nat, pc: Pc): State
    requires t < |s.threads|
  {
    s.(threads := s.threads[t := pc])
  }

  function Bump(cnt: seq<int>, p: Ptr, d: int): seq<int> {
    if p < |cnt| then cnt[p := cnt[p] + d] else cnt
  }

  function BeginCall(s: State, t: nat, call: Call): State
    requires CanBegin(s, t, call)
  {
    var start := |s.trace|;
    match call
    case LoadCall => At(s, t, LockRead(start))
    case SwapCall(neu) => At(s, t, Swap(start, neu)).(user := s.user - multiset{neu})
    case CasCall(cur, neu) => At(s, t, LockCas(start, cur, neu)).(user := s.user - multiset{neu})
  }

  function RunThread(s: State, t: nat): State
    requires CanRun(s, t)
  {
    var e := |s.trace|;
    match s.threads[t]
    case LockRead(start) => At(s, t, Read(start)).(readers := s.readers + {t})
    case Read(start) => At(s, t, IncRead(start, e, s.ptr)).(trace := s.trace + [DidLoad(t, s.ptr)])
    case IncRead(start, e, got) => At(s, t, UnlockRead(start, e, got)).(cnt := Bump(s.cnt, got, 1))
    case UnlockRead(_, _, got) => At(s, t, Idle).(readers := s.readers - {t}, user := s.user + multiset{got})
    case Swap(start, neu) =>
      At(s, t, WaitReaders(start, e, neu, s.ptr)).(ptr := neu, trace := s.trace + [DidSwap(t, neu, s.ptr)])
    case WaitReaders(start, e, neu, got) => At(s, t, PassReaders(start, e, neu, got)).(writer := Some(t))
    case PassReaders(_, _, _, got) => At(s, t, Idle).(writer := None, user := s.user + multiset{got})
    case LockCas(start, cur, neu) => At(s, t, TryCas(start, cur, neu)).(writer := Some(t))
    case TryCas(start, cur, neu) =>
      var s' := s.(trace := s.trace + [DidCas(t, cur, neu, s.ptr)]);
      if s.ptr == cur then At(s', t, UnlockCas(start, e, cur, neu, s.ptr)).(ptr := neu)
      else At(s', t, IncCas(start, e, cur, neu, s.ptr))
    case IncCas(start, e, cur, neu, got) => At(s, t, DropNew(start, e, cur, neu, got)).(cnt := Bump(s.cnt, got, 1))
    case DropNew(start, e, cur, neu, got) => At(s, t, UnlockCas(start, e, cur, neu, got)).(cnt := Bump(s.cnt, neu, -1))
    case UnlockCas(_, _, _, _, got) => At(s, t, Idle).(writer := None, user := s.user + multiset{got})
  }

  function Next(s: State, step: Step): State
    requires Enabled(s, step)
  {
    match step
    case Begin(t, call) => BeginCall(s, t, call)
    case Run(t) => RunThread(s, t)
    case Create => s.(cnt := s.cnt + [1], user := s.user + multiset{|s.cnt|})
    case Clone(p) => s.(cnt := Bump(s.cnt, p, 1), user := s.user + multiset{p})
    case Discard(p) => s.(cnt := Bump(s.cnt, p, -1), user := s.user - multiset{p})
  }

  ghost predicate Init(s: State) {
    && s.ptr == 0 && s.cnt == [1] && s.user == multiset{} && s.readers == {} && s.writer.None? && s.trace == []
    && forall t :: 0 <= t < |s.threads| ==> s.threads[t].Idle?
  }

  /** Step `i` leads from state `i` to the next. */
  ghost predicate StepAt(run: seq<State>, steps: seq<Step>, i: nat)
    requires |run| == |steps| + 1 && i < |steps|
  {
    Enabled(run[i], steps[i]) && run[i + 1] == Next(run[i], steps[i])
  }

  ghost predicate IsRun(run: seq<State>, steps: seq<Step>) {
    && |run| == |steps| + 1 && Init(run[0])
    && forall i :: 0 <= i < |steps| ==> StepAt(run, steps, i)
  }

  // ---- Counts ----

  function Is(p: Ptr, q: Ptr): nat {
    if p == q then 1 else 0
  }

  /** How many counts of `p` a thread has in hand. */
  function Own(pc: Pc, p: Ptr): nat {
    match pc
    case UnlockRead(_, _, got) => Is(got, p)
    case Swap(_, neu) => Is(neu, p)
    case WaitReaders(_, _, _, got) => Is(got, p)
    case PassReaders(_, _, _, got) => Is(got, p)
    case LockCas(_, _, neu) => Is(neu, p)
    case TryCas(_, _, neu) => Is(neu, p)
    case IncCas(_, _, _, neu, _) => Is(neu, p)
    case DropNew(_, _, _, neu, got) => Is(neu, p) + Is(got, p)
    case UnlockCas(_, _, _, _, got) => Is(got, p)
    case _ => 0
  }

  function Sum(threads: seq<Pc>, p: Ptr): nat {
    if threads == [] then 0 else Own(threads[0], p) + Sum(threads[1..], p)
  }

  /** The owners of `p`: the storage, threads, and callers. */
  function Owners(s: State, p: Ptr): nat {
    Is(s.ptr, p) + Sum(s.threads, p) + s.user[p]
  }

  /** The count of each object is the number of its owners. */
  ghost predicate CountedAt(s: State, p: Ptr) {
    if p < |s.cnt| then s.cnt[p] == Owners(s, p) else Owners(s, p) == 0
  }

  ghost predicate Counted(s: State) {
    forall p: Ptr :: CountedAt(s, p)
  }

  lemma {:induction false} SumUpdate(threads: seq<Pc>, t: nat, pc: Pc, p: Ptr)
    requires t < |threads|
    ensures Sum(threads[t := pc], p) + Own(threads[t], p) == Sum(threads, p) + Own(pc, p)
    ensures Own(threads[t], p) <= Sum(threads, p)
  {
    if t == 0 {
      assert threads[t := pc][1..] == threads[1..];
    } else {
      assert threads[t := pc][1..] == threads[1..][t - 1 := pc];
      SumUpdate(threads[1..], t - 1, pc, p);
    }
  }

  // ---- The invariant ----

  predicate Reading(pc: Pc) {
    pc.Read? || pc.IncRead? || pc.UnlockRead?
  }

  predicate Writing(pc: Pc) {
    pc.PassReaders? || pc.TryCas? || pc.IncCas? || pc.DropNew? || pc.UnlockCas?
  }

  /** The object is in the storage, or with a thread that took it out and has not passed the lock. */
  ghost predicate Backed(s: State, p: Ptr) {
    p == s.ptr || exists u :: 0 <= u < |s.threads| && s.threads[u].WaitReaders? && s.threads[u].got == p
  }

  /** The operation's own event is in the trace, after its call, with its arguments and its result. */
  ghost predicate Recorded(s: State, t: nat)
    requires t < |s.threads|
  {
    var pc := s.threads[t];
    match pc
    case Idle => true
    case IncRead(start, e, got) => start <= e < |s.trace| && s.trace[e] == DidLoad(t, got)
    case UnlockRead(start, e, got) => start <= e < |s.trace| && s.trace[e] == DidLoad(t, got)
    case WaitReaders(start, e, neu, got) => start <= e < |s.trace| && s.trace[e] == DidSwap(t, neu, got)
    case PassReaders(start, e, neu, got) => start <= e < |s.trace| && s.trace[e] == DidSwap(t, neu, got)
    case IncCas(start, e, cur, neu, got) =>
      start <= e < |s.trace| && s.trace[e] == DidCas(t, cur, neu, got) && got != cur
    case DropNew(start, e, cur, neu, got) =>
      start <= e < |s.trace| && s.trace[e] == DidCas(t, cur, neu, got) && got != cur
    case UnlockCas(start, e, cur, neu, got) => start <= e < |s.trace| && s.trace[e] == DidCas(t, cur, neu, got)
    case _ => pc.start <= |s.trace|
  }

  ghost predicate ThreadOk(s: State, t: nat)
    requires t < |s.threads|
  {
    var pc := s.threads[t];
    && (t in s.readers <==> Reading(pc)) && (s.writer == Some(t) <==> Writing(pc))
    && (pc.IncRead? || pc.IncCas? ==> Backed(s, pc.got))
    && Recorded(s, t)
  }

  /** The register that the trace describes. */
  function Apply(reg: Ptr, e: Event): Option<Ptr> {
    if e.got != reg then None else
    match e
    case DidLoad(_, _) => Some(reg)
    case DidSwap(_, neu, _) => Some(neu)
    case DidCas(_, cur, neu, _) => Some(if reg == cur then neu else reg)
  }

  /** Runs the first `n` events one after another on a register that holds object 0; every result must be right. */
  function Replay(trace: seq<Event>, n: nat): Option<Ptr>
    requires n <= |trace|
  {
    if n == 0 then Some(0) else
    var before := Replay(trace, n - 1);
    if before.None? then None else Apply(before.value, trace[n - 1])
  }

  ghost predicate Inv(s: State) {
    && Counted(s)
    && (s.readers == {} || s.writer.None?)
    && (forall t :: 0 <= t < |s.threads| ==> ThreadOk(s, t))
    && Replay(s.trace, |s.trace|) == Some(s.ptr)
  }

  lemma {:induction false} ReplaySame(trace: seq<Event>, e: Event, n: nat)
    requires n <= |trace|
    ensures Replay(trace + [e], n) == Replay(trace, n)
  {
    if n > 0 { ReplaySame(trace, e, n - 1); }
  }

  lemma BackedOwned(s: State, p: Ptr)
    requires Backed(s, p)
    ensures Owners(s, p) >= 1
  {
    if p != s.ptr {
      var u: nat :| u < |s.threads| && s.threads[u].WaitReaders? && s.threads[u].got == p;
      SumUpdate(s.threads, u, Idle, p);
    }
  }

  /** What is read and not yet counted cannot lose its last count. */
  lemma StepBacked(s: State, step: Step, u: nat)
    requires Inv(s) && Enabled(s, step) && u < |s.threads| && step != Run(u)
    requires s.threads[u].IncRead? || s.threads[u].IncCas?
    ensures |Next(s, step).threads| == |s.threads| && Next(s, step).threads[u] == s.threads[u]
    ensures Backed(Next(s, step), s.threads[u].got)
  {
    var s', p := Next(s, step), s.threads[u].got;
    assert ThreadOk(s, u);
    if step.Run? {
      assert ThreadOk(s, step.t);
      assert s'.threads[step.t].WaitReaders? || s'.ptr == s.ptr;
    }
    if p != s.ptr {
      var v: nat :| v < |s.threads| && s.threads[v].WaitReaders? && s.threads[v].got == p;
      assert s'.threads[v] == s.threads[v];
    }
  }

  /** Threads that did not take the step. */
  lemma OthersOk(s: State, step: Step, u: nat)
    requires Inv(s) && Enabled(s, step) && u < |s.threads| && (step.Run? || step.Begin? ==> step.t != u)
    ensures |Next(s, step).threads| == |s.threads| && ThreadOk(Next(s, step), u)
  {
    assert ThreadOk(s, u);
    if step.Run? { assert ThreadOk(s, step.t); }
    if s.threads[u].IncRead? || s.threads[u].IncCas? { StepBacked(s, step, u); }
  }

  lemma OwnOk(s: State, t: nat)
    requires CanRun(s, t) && ThreadOk(s, t)
    ensures ThreadOk(RunThread(s, t), t)
  {
  }

  predicate AboutToCount(pc: Pc, p: Ptr) {
    (pc.IncRead? || pc.IncCas?) && pc.got == p
  }

  /** Thread `t` knows existing objects only. */
  lemma KnownExist(s: State, t: nat, p: Ptr)
    requires Inv(s) && t < |s.threads|
    ensures p < |s.cnt| || (Own(s.threads[t], p) == 0 && p != s.ptr && !AboutToCount(s.threads[t], p))
  {
    assert CountedAt(s, p) && ThreadOk(s, t);
    if Backed(s, p) { BackedOwned(s, p); }
    SumUpdate(s.threads, t, Idle, p);
  }

  /** What a step of thread `t` adds to the owners of `p`. */
  function Gain(s: State, s': State, t: nat, p: Ptr): int
    requires t < |s.threads| && t < |s'.threads|
  {
    Is(s'.ptr, p) - Is(s.ptr, p) + Own(s'.threads[t], p) - Own(s.threads[t], p) + s'.user[p] - s.user[p]
  }

  ghost predicate Settled(s: State, s': State, t: nat, p: Ptr) {
    && t < |s.threads| && t < |s'.threads| && |s'.cnt| == |s.cnt| && s'.threads == s.threads[t := s'.threads[t]]
    && Gain(s, s', t, p) == if p < |s.cnt| then s'.cnt[p] - s.cnt[p] else 0
  }

  /** Each step of a thread changes the count of `p` by the owners it adds. */
  lemma LoadGains(s: State, t: nat, p: Ptr)
    requires CanRun(s, t) && (s.threads[t].LockRead? || Reading(s.threads[t]))
    requires p < |s.cnt| || !AboutToCount(s.threads[t], p)
    ensures Settled(s, RunThread(s, t), t, p)
  {
  }

  lemma WriteGains(s: State, t: nat, p: Ptr)
    requires CanRun(s, t) && !s.threads[t].LockRead? && !Reading(s.threads[t])
    requires p < |s.cnt| || (Own(s.threads[t], p) == 0 && p != s.ptr && !AboutToCount(s.threads[t], p))
    ensures Settled(s, RunThread(s, t), t, p)
  {
  }

  lemma BeginGains(s: State, t: nat, call: Call, p: Ptr)
    requires CanBegin(s, t, call)
    ensures Settled(s, BeginCall(s, t, call), t, p)
  {
  }

  lemma GainCounted(s: State, s': State, t: nat, p: Ptr)
    requires CountedAt(s, p) && Settled(s, s', t, p)
    ensures CountedAt(s', p)
  {
    SumUpdate(s.threads, t, s'.threads[t], p);
  }

  lemma StepGains(s: State, step: Step, p: Ptr)
    requires Inv(s) && Enabled(s, step) && (step.Run? || step.Begin?)
    ensures Settled(s, Next(s, step), step.t, p)
  {
    if step.Begin? { BeginGains(s, step.t, step.call, p); } else {
      KnownExist(s, step.t, p);
      if s.threads[step.t].LockRead? || Reading(s.threads[step.t]) { LoadGains(s, step.t, p); }
      else { WriteGains(s, step.t, p); }
    }
  }

  lemma OutsideCounted(s: State, step: Step, p: Ptr)
    requires Enabled(s, step) && CountedAt(s, p) && (step.Create? || step.Clone? || step.Discard?)
    ensures CountedAt(Next(s, step), p)
  {
    assert Next(s, step).threads == s.threads;
  }

  lemma StepCounted(s: State, step: Step, p: Ptr)
    requires Inv(s) && Enabled(s, step)
    ensures CountedAt(Next(s, step), p)
  {
    assert CountedAt(s, p);
    if step.Run? || step.Begin? {
      StepGains(s, step, p);
      GainCounted(s, Next(s, step), step.t, p);
    } else {
      OutsideCounted(s, step, p);
    }
  }

  /** A step adds at most one event, and that one fits the register. */
  lemma StepApplies(s: State, step: Step)
    requires Enabled(s, step)
    ensures var s' := Next(s, step);
      if s'.trace == s.trace then s'.ptr == s.ptr
      else
        && |s'.trace| == |s.trace| + 1 && s'.trace == s.trace + [s'.trace[|s.trace|]]
        && Apply(s.ptr, s'.trace[|s.trace|]) == Some(s'.ptr)
  {
  }

  lemma StepReplay(s: State, step: Step)
    requires Replay(s.trace, |s.trace|) == Some(s.ptr) && Enabled(s, step)
    ensures Replay(Next(s, step).trace, |Next(s, step).trace|) == Some(Next(s, step).ptr)
  {
    var s' := Next(s, step);
    StepApplies(s, step);
    if s'.trace != s.trace { ReplaySame(s.trace, s'.trace[|s.trace|], |s.trace|); }
  }

  lemma StepInv(s: State, step: Step)
    requires Inv(s) && Enabled(s, step)
    ensures Inv(Next(s, step))
  {
    forall p: Ptr ensures CountedAt(Next(s, step), p) { StepCounted(s, step, p); }
    StepReplay(s, step);
    forall u | 0 <= u < |s.threads| ensures |Next(s, step).threads| == |s.threads| && ThreadOk(Next(s, step), u) {
      assert ThreadOk(s, u);
      if step == Run(u) { OwnOk(s, u); } else if !(step.Begin? && step.t == u) { OthersOk(s, step, u); }
    }
  }

  lemma {:induction false} InitInv(s: State)
    requires Init(s)
    ensures Inv(s)
  {
    forall p: Ptr ensures CountedAt(s, p) { IdleSum(s.threads, p); }
    forall t | 0 <= t < |s.threads| ensures ThreadOk(s, t) { assert s.threads[t].Idle?; }
  }

  lemma {:induction false} IdleSum(threads: seq<Pc>, p: Ptr)
    requires forall t :: 0 <= t < |threads| ==> threads[t].Idle?
    ensures Sum(threads, p) == 0
  {
    if threads != [] { IdleSum(threads[1..], p); }
  }

  lemma {:induction false} RunsInv(run: seq<State>, steps: seq<Step>, k: nat)
    requires IsRun(run, steps) && k < |run|
    ensures Inv(run[k])
  {
    if k == 0 { InitInv(run[0]); } else {
      RunsInv(run, steps, k - 1);
      assert StepAt(run, steps, k - 1);
      StepInv(run[k - 1], steps[k - 1]);
    }
  }

  // ---- What holds in every run ----

  /** Counts are exact, and what a thread has read and is about to count still has a count. */
  lemma LockedNothingDangles(run: seq<State>, steps: seq<Step>, k: nat, p: Ptr)
    requires IsRun(run, steps) && k < |run|
    ensures p < |run[k].cnt| ==> run[k].cnt[p] == Owners(run[k], p)
    ensures Owners(run[k], p) > 0 ==> p < |run[k].cnt|
    ensures (exists t :: 0 <= t < |run[k].threads| && AboutToCount(run[k].threads[t], p)) ==>
      p < |run[k].cnt| && run[k].cnt[p] >= 1
  {
    RunsInv(run, steps, k);
    assert CountedAt(run[k], p);
    if Backed(run[k], p) { BackedOwned(run[k], p); }
    forall t | 0 <= t < |run[k].threads| && AboutToCount(run[k].threads[t], p) ensures Backed(run[k], p) {
      assert ThreadOk(run[k], t);
    }
  }

  lemma StepFreed(s: State, step: Step, p: Ptr)
    requires Inv(s) && Enabled(s, step) && p < |s.cnt| && s.cnt[p] == 0
    ensures p < |Next(s, step).cnt| && Next(s, step).cnt[p] == 0
  {
    assert CountedAt(s, p);
    if Backed(s, p) { BackedOwned(s, p); }
    if step.Run? {
      assert ThreadOk(s, step.t);
      SumUpdate(s.threads, step.t, Idle, p);
    }
  }

  /** An object whose count has reached zero is never counted again. */
  lemma {:induction false} LockedFreedStaysFreed(run: seq<State>, steps: seq<Step>, i: nat, j: nat, p: Ptr)
    requires IsRun(run, steps) && i <= j < |run| && p < |run[i].cnt| && run[i].cnt[p] == 0
    ensures p < |run[j].cnt| && run[j].cnt[p] == 0
  {
    if i < j {
      LockedFreedStaysFreed(run, steps, i, j - 1, p);
      RunsInv(run, steps, j - 1);
      assert StepAt(run, steps, j - 1);
      StepFreed(run[j - 1], steps[j - 1], p);
    }
  }

  /** The program points of a call. */
  predicate Serves(pc: Pc, call: Call) {
    match call
    case LoadCall => pc.LockRead? || pc.Read? || pc.IncRead? || pc.UnlockRead?
    case SwapCall(neu) => (pc.Swap? || pc.WaitReaders? || pc.PassReaders?) && pc.neu == neu
    case CasCall(cur, neu) =>
      (pc.LockCas? || pc.TryCas? || pc.IncCas? || pc.DropNew? || pc.UnlockCas?) && pc.cur == cur && pc.neu == neu
  }

  predicate Before(pc: Pc) {
    pc.LockRead? || pc.Read? || pc.Swap? || pc.LockCas? || pc.TryCas?
  }

  /** Thread `t` is in `call` since the trace had length `n`; of its events since then, there is at most its own. */
  ghost predicate InCall(s: State, t: nat, call: Call, n: nat) {
    && t < |s.threads| && Serves(s.threads[t], call) && s.threads[t].start == n <= |s.trace|
    && forall e :: n <= e < |s.trace| && s.trace[e].t == t ==> !Before(s.threads[t]) && s.threads[t].e == e
  }

  lemma StepTrace(s: State, step: Step)
    requires Enabled(s, step)
    ensures s.trace <= Next(s, step).trace && |Next(s, step).trace| <= |s.trace| + 1
    ensures |Next(s, step).trace| > |s.trace| ==> step.Run? && Next(s, step).trace[|s.trace|].t == step.t
  {
  }

  lemma StepCall(s: State, t: nat, call: Call)
    requires CanRun(s, t) && Serves(s.threads[t], call) && !RunThread(s, t).threads[t].Idle?
    ensures var pc, s' := s.threads[t], RunThread(s, t); Serves(s'.threads[t], call) && s'.threads[t].start == pc.start
    ensures var pc, s' := s.threads[t], RunThread(s, t);
      if Before(s'.threads[t]) then Before(pc) && s'.trace == s.trace
      else if Before(pc) then |s'.trace| == |s.trace| + 1 && s'.threads[t].e == |s.trace|
      else s'.trace == s.trace && s'.threads[t].e == pc.e
  {
  }

  lemma StepInCall(s: State, step: Step, t: nat, call: Call, n: nat)
    requires Enabled(s, step) && InCall(s, t, call, n) && t < |Next(s, step).threads| && !Next(s, step).threads[t].Idle?
    ensures InCall(Next(s, step), t, call, n)
  {
    StepTrace(s, step);
    if step == Run(t) { StepCall(s, t, call); }
  }

  lemma BeginInCall(s: State, t: nat, call: Call)
    requires CanBegin(s, t, call)
    ensures InCall(BeginCall(s, t, call), t, call, |s.trace|)
  {
  }

  lemma {:induction false} CallLasts(run: seq<State>, steps: seq<Step>, i: nat, k: nat, t: nat, call: Call)
    requires IsRun(run, steps) && i < k < |run| && steps[i] == Begin(t, call)
    requires forall j :: i < j <= k ==> t < |run[j].threads| && !run[j].threads[t].Idle?
    ensures InCall(run[k], t, call, |run[i].trace|)
  {
    assert StepAt(run, steps, i);
    if k == i + 1 { BeginInCall(run[i], t, call); } else {
      CallLasts(run, steps, i, k - 1, t, call);
      assert !run[k].threads[t].Idle?;
      assert StepAt(run, steps, k - 1);
      StepInCall(run[k - 1], steps[k - 1], t, call, |run[i].trace|);
    }
  }

  function EventOf(t: nat, call: Call, got: Ptr): Event {
    match call
    case LoadCall => DidLoad(t, got)
    case SwapCall(neu) => DidSwap(t, neu, got)
    case CasCall(cur, neu) => DidCas(t, cur, neu, got)
  }

  /** Step `j`, if it is one of thread `t`, changes nothing of what callers have. */
  ghost predicate Untouched(run: seq<State>, steps: seq<Step>, j: nat, t: nat) {
    |run| == |steps| + 1 && j < |steps| && (steps[j] == Run(t) ==> run[j + 1].user == run[j].user)
  }

  /** A thread gives nothing to callers before it returns. */
  lemma StaysWithout(s: State, t: nat)
    requires CanRun(s, t) && !RunThread(s, t).threads[t].Idle?
    ensures RunThread(s, t).user == s.user
  {
  }

  /**
   The lock-based strategy refines a sequential register. The trace replays on the register with every result right, and
   ends with what the storage holds. And a call that began in step `i` and returns in step `k` has exactly one event in
   the trace in between, with the arguments of the call and the result that the caller gets. The call takes its new
   value from the caller with its first step, gives the result with its last, and neither takes nor gives in between.
   */
  lemma LockStrategyIsLinearizable(run: seq<State>, steps: seq<Step>, i: nat, k: nat, t: nat,
      call: Call) returns (e: nat, got: Ptr)
    requires IsRun(run, steps) && i < k < |steps| && steps[i] == Begin(t, call) && steps[k] == Run(t)
    requires forall j :: i < j <= k ==> t < |run[j].threads| && !run[j].threads[t].Idle?
    requires t < |run[k + 1].threads| && run[k + 1].threads[t].Idle?
    ensures Replay(run[k].trace, |run[k].trace|) == Some(run[k].ptr)
    ensures |run[i].trace| <= e < |run[k].trace| && run[k].trace[e] == EventOf(t, call, got)
    ensures forall d :: |run[i].trace| <= d < |run[k].trace| && run[k].trace[d].t == t ==> d == e
    ensures run[k + 1].user == run[k].user + multiset{got}
    ensures run[i + 1].user == run[i].user - (if call.LoadCall? then multiset{} else multiset{call.neu})
    ensures forall j: nat :: i < j < k ==> Untouched(run, steps, j, t)
  {
    assert StepAt(run, steps, i);
    forall j: nat | i < j < k ensures Untouched(run, steps, j, t) {
      assert StepAt(run, steps, j) && !run[j + 1].threads[t].Idle?;
      if steps[j] == Run(t) { StaysWithout(run[j], t); }
    }
    RunsInv(run, steps, k);
    CallLasts(run, steps, i, k, t, call);
    assert StepAt(run, steps, k) && ThreadOk(run[k], t);
    e, got := run[k].threads[t].e, run[k].threads[t].got;
  }

  lemma {:induction false} TraceGrows(run: seq<State>, steps: seq<Step>, i: nat, j: nat)
    requires IsRun(run, steps) && i <= j < |run|
    ensures run[i].trace <= run[j].trace
  {
    if i < j {
      TraceGrows(run, steps, i, j - 1);
      assert StepAt(run, steps, j - 1);
      StepTrace(run[j - 1], steps[j - 1]);
    }
  }

  /** What callers do with their handles changes what they have, and so the counts, by just that handle. */
  lemma CallersAccounted(run: seq<State>, steps: seq<Step>, j: nat)
    requires IsRun(run, steps) && j < |steps| && (steps[j].Create? || steps[j].Clone? || steps[j].Discard?)
    ensures var s, s' := run[j], run[j + 1];
      match steps[j]
      case Create => s'.user == s.user + multiset{|s.cnt|} && |s'.cnt| == |s.cnt| + 1 && s'.cnt[|s.cnt|] == 1
      case Clone(p) => p < |s.cnt| && s'.user == s.user + multiset{p} && s'.cnt == s.cnt[p := s.cnt[p] + 1]
      case Discard(p) => p < |s.cnt| && s'.user == s.user - multiset{p} && s'.cnt == s.cnt[p := s.cnt[p] - 1]
      case _ => true
  {
    RunsInv(run, steps, j);
    assert StepAt(run, steps, j);
    if steps[j].Clone? || steps[j].Discard? { assert CountedAt(run[j], steps[j].p); }
  }
}
