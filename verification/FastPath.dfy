/**
 The fast path in the protocol: a load falls back only after it has found each of the eight fast slots of its node
 taken, and changes no count if nobody interferes.
 */
module FastPath {
  import opened Ledger
  import opened Machine
  import opened Protocol
  import opened Invariant
  import opened Exchanges
  import opened Accounts
  import opened Delivery
  import Sequential

  ghost predicate SlotTaken(run: seq<State>, m: nat, x: SlotId) {
    m < |run| && InUse(run[m].book, x)
  }

  ghost predicate InUse(b: Book, x: SlotId) {
    x in b.slots && b.slots[x].val.Some?
  }

  /** Thread `t` is searching for a fast slot in state `j`. */
  ghost predicate Scans(run: seq<State>, j: nat, t: nat) {
    j < |run| && t < |run[j].threads| && run[j].threads[t].load.Loading? && run[j].threads[t].load.pc.ScanFast?
  }

  lemma PayOffset(s: State, u: nat, t: nat)
    requires CanPay(s, u) && t < |s.nodes|
    ensures t < |RunPay(s, u).nodes| && RunPay(s, u).nodes[t].offset == s.nodes[t].offset
  {
  }

  /** Nobody else moves the offset of a thread's search. */
  lemma OtherOffset(s: State, step: Step, t: nat)
    requires Sane(s) && Enabled(s, step) && t < |s.nodes| && Actor(s, step) != t
    ensures t < |Next(s, step).nodes| && Next(s, step).nodes[t].offset == s.nodes[t].offset
  {
    if step.Run? {
      var u := step.t;
      if s.threads[u].load.Loading? {
        if !s.threads[u].load.pc.Done? { LoadStepMoves(s, u); }
      } else if s.threads[u].op.Pay? && !Unattached(s.threads[u].op) {
        PayOffset(s, u, t);
      }
    }
  }

  /** Fast slot `x` of thread `t` was taken at a state from `b` on, before `j`. */
  ghost predicate FoundTaken(run: seq<State>, b: nat, j: nat, t: nat, x: nat) {
    exists m: nat :: b <= m < j && SlotTaken(run, m, SlotId(t, x))
  }

  /** The slot whose turn it is, for a search that has come to round `q`. */
  function Turn(offset: nat, q: nat): nat {
    (q + offset) % FAST_SLOTS
  }

  /** A step leaves the search where it is, or finds the slot whose turn it is taken. */
  ghost predicate RoundStep(s: State, s': State, t: nat, offset: nat)
    requires t < |s.threads| && s.threads[t].load.Loading? && s.threads[t].load.pc.ScanFast?
  {
    && t < |s'.threads| && s'.threads[t].load.Loading?
    && t < |s.nodes| && t < |s'.nodes| && s'.nodes[t].offset == s.nodes[t].offset
    && (s.nodes[t].offset == offset ==>
      var i, pc := s.threads[t].load.pc.i, s'.threads[t].load.pc;
      && (pc.ScanFast? ==> pc.i == i || (pc.i == i + 1 && InUse(s.book, SlotId(t, Turn(offset, i)))))
      && (pc.Publish? ==> i + 1 >= FAST_SLOTS && InUse(s.book, SlotId(t, Turn(offset, i)))))
  }

  lemma OtherRound(s: State, step: Step, t: nat, offset: nat)
    requires Inv(s) && Enabled(s, step) && Actor(s, step) != t < |s.threads|
    requires s.threads[t].load.Loading? && s.threads[t].load.pc.ScanFast?
    ensures RoundStep(s, Next(s, step), t, offset)
  {
    OtherActor(s, step, t);
    OtherOffset(s, step, t);
  }

  /** One round of the search. */
  lemma OwnRound(s: State, t: nat, offset: nat)
    requires Sane(s) && CanLoad(s, t) && t < |s.threads| && s.threads[t].load.pc.ScanFast?
    ensures RoundStep(s, RunLoad(s, t), t, offset)
  {
    assert SlotId(t, Turn(s.nodes[t].offset, s.threads[t].load.pc.i)) in s.book.slots;
  }

  lemma StepRound(s: State, step: Step, t: nat, offset: nat)
    requires Inv(s) && Enabled(s, step) && t < |s.threads|
    requires s.threads[t].load.Loading? && s.threads[t].load.pc.ScanFast?
    ensures RoundStep(s, Next(s, step), t, offset)
  {
    assert ThreadOk(s, t);
    if Actor(s, step) == t { OwnRound(s, t, offset); } else { OtherRound(s, step, t, offset); }
  }

  ghost predicate Round(run: seq<State>, j: nat, t: nat, offset: nat) {
    Scans(run, j, t) && j + 1 < |run| && RoundStep(run[j], run[j + 1], t, offset)
  }

  lemma RunRound(run: seq<State>, steps: seq<Step>, j: nat, t: nat, offset: nat)
    requires IsRun(run, steps) && j < |steps| && Scans(run, j, t)
    ensures Round(run, j, t, offset)
  {
    RunsInv(run, steps, j);
    assert StepAt(run, steps, j);
    StepRound(run[j], steps[j], t, offset);
  }

  /** By state `j`, the search that began in state `b` has found all slots taken whose turn it was. */
  ghost predicate Searched(run: seq<State>, b: nat, j: nat, t: nat, offset: nat) {
    && Scans(run, j, t) && t < |run[j].nodes| && run[j].nodes[t].offset == offset
    && forall q: nat :: q < run[j].threads[t].load.pc.i ==> FoundTaken(run, b, j, t, Turn(offset, q))
  }

  lemma FoundLater(run: seq<State>, b: nat, j: nat, k: nat, t: nat, x: nat)
    requires FoundTaken(run, b, j, t, x) && j <= k
    ensures FoundTaken(run, b, k, t, x)
  {
    var m: nat :| b <= m < j && SlotTaken(run, m, SlotId(t, x));
  }

  lemma {:induction false} SearchedSoFar(run: seq<State>, b: nat, k: nat, t: nat, offset: nat)
    requires b <= k < |run| && Searched(run, b, b, t, offset) && forall j: nat :: b <= j <= k ==> Scans(run, j, t)
    requires forall j: nat :: b <= j < k ==> Round(run, j, t, offset)
    ensures Searched(run, b, k, t, offset)
    decreases k
  {
    if b < k {
      var j := k - 1;
      SearchedSoFar(run, b, j, t, offset);
      assert Round(run, j, t, offset) && Scans(run, k, t);
      var i := run[j].threads[t].load.pc.i;
      assert InUse(run[j].book, SlotId(t, Turn(offset, i))) ==> SlotTaken(run, j, SlotId(t, Turn(offset, i)));
      forall q: nat | q < run[k].threads[t].load.pc.i ensures FoundTaken(run, b, k, t, Turn(offset, q)) {
        if q < run[j].threads[t].load.pc.i { FoundLater(run, b, j, k, t, Turn(offset, q)); }
      }
    }
  }

  lemma AllTurns(run: seq<State>, b: nat, k: nat, t: nat, offset: nat)
    requires forall q: nat :: q < FAST_SLOTS ==> FoundTaken(run, b, k, t, Turn(offset, q))
    ensures forall x: nat :: x < FAST_SLOTS ==> FoundTaken(run, b, k, t, x)
  {
    forall x: nat | x < FAST_SLOTS ensures FoundTaken(run, b, k, t, x) {
      Sequential.RotationCovers(offset, x);
      var q: nat :| q < FAST_SLOTS && Sequential.Rotated(offset, q) == x;
      assert FoundTaken(run, b, k, t, Turn(offset, q));
    }
  }

  /** The search begins in state `b`. */
  ghost predicate Begins(run: seq<State>, b: nat, t: nat) {
    Scans(run, b, t) && t < |run[b].nodes| && run[b].threads[t].load.pc.i == 0
  }

  /**
   A load that begins its search in state `b`, and has gone over to the fallback by state `k`, has found every fast slot
   of its node taken in between.
   */
  lemma FallbackOnlyIfFull(run: seq<State>, steps: seq<Step>, b: nat, k: nat, t: nat)
    requires IsRun(run, steps) && b < k < |run| && Begins(run, b, t)
    requires forall j: nat :: b <= j < k ==> Scans(run, j, t)
    requires t < |run[k].threads| && run[k].threads[t].load.Loading? && run[k].threads[t].load.pc.Publish?
    ensures forall x: nat :: x < FAST_SLOTS ==> FoundTaken(run, b, k, t, x)
  {
    var offset, j := run[b].nodes[t].offset, k - 1;
    forall m: nat | b <= m < k ensures Round(run, m, t, offset) { RunRound(run, steps, m, t, offset); }
    SearchedSoFar(run, b, j, t, offset);
    FallbackFound(run, b, k, t, offset);
    AllTurns(run, b, k, t, offset);
  }

  lemma FallbackFound(run: seq<State>, b: nat, k: nat, t: nat, offset: nat)
    requires b < k < |run| && Searched(run, b, k - 1, t, offset) && Round(run, k - 1, t, offset)
    requires run[k].threads[t].load.pc.Publish?
    ensures forall q: nat :: q < FAST_SLOTS ==> FoundTaken(run, b, k, t, Turn(offset, q))
  {
    var j, i := k - 1, run[k - 1].threads[t].load.pc.i;
    forall q: nat | q < FAST_SLOTS ensures FoundTaken(run, b, k, t, Turn(offset, q)) {
      if q < i {
        assert FoundTaken(run, b, j, t, Turn(offset, q));
        FoundLater(run, b, j, k, t, Turn(offset, q));
      } else {
        assert SlotTaken(run, j, SlotId(t, Turn(offset, q)));
      }
    }
  }

  // ---- Nobody interferes ----

  ghost predicate SlotIsFree(s: State, t: nat, x: nat) {
    x < FAST_SLOTS && SlotFree(s.book, SlotId(t, x))
  }

  /** There is a free slot whose turn comes in round `i` or later. */
  ghost predicate FreeAhead(s: State, t: nat, offset: nat, i: nat) {
    exists q: nat :: i <= q < FAST_SLOTS && SlotIsFree(s, t, Turn(offset, q))
  }

  /** A load for the program on the fast path, with a pointer that is still current and a slot in reach. */
  ghost predicate OnTrack(s: State, t: nat) {
    && t < |s.threads| && t < |s.nodes| && s.threads[t].op.UserLoad? && s.threads[t].load.Loading?
    && s.threads[t].load.a < |s.storages|
    && var p := s.storages[s.threads[t].load.a].ptr;
       match s.threads[t].load.pc
       case ReadPtr => FreeAhead(s, t, s.nodes[t].offset, 0)
       case ScanFast(q, _, i) => q == p && FreeAhead(s, t, s.nodes[t].offset, i)
       case PutFast(q, _, _) => q == p
       case Recheck(q, _, _) => q == p
       case Done(_, _, c) => c < |s.book.claims| && s.book.claims[c].kind.Debt?
       case _ => false
  }

  lemma StaysOnTrack(s: State, t: nat)
    requires Sane(s) && CanLoad(s, t) && OnTrack(s, t) && ShapeOk(s, t) && !s.threads[t].load.pc.Done?
    ensures OnTrack(RunLoad(s, t), t) && RunLoad(s, t).book.cnt == s.book.cnt
  {
    var s', pc := RunLoad(s, t), s.threads[t].load.pc;
    if pc.ReadPtr? || pc.ScanFast? {
      var i := if pc.ReadPtr? then 0 else pc.i;
      var q: nat :| i <= q < FAST_SLOTS && SlotIsFree(s, t, Turn(s.nodes[t].offset, q));
      assert SlotId(t, Turn(s.nodes[t].offset, i)) in s.book.slots;
      assert s'.book == s.book ==> SlotIsFree(s', t, Turn(s.nodes[t].offset, q));
    }
  }

  /** A step of such a load, when the thread has the processor for itself. */
  lemma RunsOnTrack(run: seq<State>, steps: seq<Step>, j: nat, t: nat)
    requires IsRun(run, steps) && j < |steps| && steps[j] == Run(t) && OnTrack(run[j], t)
    ensures run[j + 1].book.cnt == run[j].book.cnt
    ensures t < |run[j + 1].threads| && (!run[j + 1].threads[t].op.Ready? ==> OnTrack(run[j + 1], t))
    ensures run[j + 1].threads[t].op.Ready? ==> run[j].threads[t].load.pc.Done?
  {
    RunsInv(run, steps, j);
    assert StepAt(run, steps, j) && ThreadOk(run[j], t);
    if !run[j].threads[t].load.pc.Done? { StaysOnTrack(run[j], t); }
  }

  lemma {:induction false} TrackSoFar(run: seq<State>, steps: seq<Step>, b: nat, k: nat, t: nat)
    requires IsRun(run, steps) && b <= k < |run| && OnTrack(run[b], t) && InCalls(run, b, k, t)
    requires forall j: nat :: b <= j < k ==> steps[j] == Run(t)
    ensures OnTrack(run[k], t) && run[k].book.cnt == run[b].book.cnt
    decreases k
  {
    if b < k {
      TrackSoFar(run, steps, b, k - 1, t);
      RunsOnTrack(run, steps, k - 1, t);
    }
  }

  /** What the fast path is for: a load that nobody interferes with, and that has a free slot, changes no count. */
  lemma UndisturbedLoadCountsNothing(run: seq<State>, steps: seq<Step>, b: nat, k: nat, t: nat, x: nat)
    returns (g: nat, p: Ptr)
    requires IsRun(run, steps) && b <= k < |steps| && forall j: nat :: b <= j <= k ==> steps[j] == Run(t)
    requires InCalls(run, b, k, t) && run[b].threads[t].op.UserLoad? && run[b].threads[t].load.Loading?
    requires run[b].threads[t].load.pc.ReadPtr? && SlotIsFree(run[b], t, x)
    requires t < |run[k + 1].threads| && run[k + 1].threads[t].op.Ready?
    ensures run[k + 1].book.cnt == run[b].book.cnt
    ensures Gives(run[k], run[k + 1], g, p) && run[k + 1].book.claims[g].kind.Debt?
  {
    RunsInv(run, steps, b);
    assert ThreadOk(run[b], t);
    Sequential.RotationCovers(run[b].nodes[t].offset, x);
    var q: nat :| q < FAST_SLOTS && Sequential.Rotated(run[b].nodes[t].offset, q) == x;
    assert SlotIsFree(run[b], t, Turn(run[b].nodes[t].offset, q));
    TrackSoFar(run, steps, b, k, t);
    RunsOnTrack(run, steps, k, t);
    ReturnGives(run, steps, k, t);
    g, p := run[k].threads[t].load.pc.c, run[k].threads[t].load.pc.ptr;
    DeliversDebt(run, steps, k, t);
  }

  lemma DeliversDebt(run: seq<State>, steps: seq<Step>, k: nat, t: nat)
    requires IsRun(run, steps) && k < |steps| && steps[k] == Run(t) && OnTrack(run[k], t)
    requires run[k].threads[t].load.pc.Done?
    ensures var c := run[k].threads[t].load.pc.c; c < |run[k + 1].book.claims| && run[k + 1].book.claims[c].kind.Debt?
  {
    RunsInv(run, steps, k);
    assert StepAt(run, steps, k) && ThreadOk(run[k], t);
  }
}
