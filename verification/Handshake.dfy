/**
 The helping handshake over whole runs: the assertions in the code hold, a hand-over reaches the
 transaction it was made for, envelopes are never shared, and loads are wait-free.
 */
module Handshake {
  import opened Ledger
  import opened Machine
  import opened Ownership
  import opened Protocol
  import opened Envelopes
  import opened Backing
  import opened History
  import opened Invariant
  import Linearizability

  // ---- The assertions in the code ----

  /** The debug assertions on slots and control words, at the program points where they stand. */
  ghost predicate AssertionsHold(s: State, t: nat)
    requires t < |s.threads| && |s.nodes| == |s.threads|
  {
    var l, o, w := s.threads[t].load, s.threads[t].op, s.nodes[t].control;
    && (l.Loading? && l.pc.PutFast? ==> SlotFree(s.book, SlotId(t, l.pc.i)))
    && (l.Loading? && l.pc.Open? ==> w == Idle)
    && (l.Loading? && l.pc.PutCand? ==> SlotFree(s.book, SlotId(t, HELPING)))
    && (l.Loading? && l.pc.Close? ==> w == Gen(s.nodes[t].gen) || w.Repl?)
    && (o.Pay? && o.pc.Helping? && o.pc.h.HRead? ==> w == Idle)
    && (o.Pay? && o.pc.Helping? && !o.pc.h.HRead? && o.pc.rest != [] ==> o.pc.rest[0] != t)
  }

  /** Outside of a fallback the control word is idle and the helping slot empty. */
  ghost predicate QuietOutside(s: State, t: nat)
    requires t < |s.threads| && |s.nodes| == |s.threads|
  {
    s.threads[t].load.NoLoad? || FastPc(s.threads[t].load.pc) || s.threads[t].load.pc.Publish? ==>
      s.nodes[t].control == Idle && SlotFree(s.book, SlotId(t, HELPING))
  }

  lemma StateAssertions(s: State, t: nat)
    requires Inv(s) && t < |s.threads|
    ensures AssertionsHold(s, t) && QuietOutside(s, t)
  {
    assert ThreadOk(s, t);
    if !SlotFree(s.book, SlotId(t, HELPING)) {
      HelpingSlotUser(s, t);
    }
    var o := s.threads[t].op;
    if o.Pay? && o.pc.Helping? && o.pc.rest != [] {
      assert o.pc.rest[0] in o.pc.rest;
    }
  }

  lemma AssertionsAlwaysHold(run: seq<State>, steps: seq<Step>, i: nat, t: nat)
    requires IsRun(run, steps) && i < |run| && t < |run[i].threads|
    ensures |run[i].nodes| == |run[i].threads| && AssertionsHold(run[i], t) && QuietOutside(run[i], t)
  {
    RunsInv(run, steps, i);
    StateAssertions(run[i], t);
  }

  // ---- The hand-over ----

  /**
   A successful exchange of a generation for a replacement reaches the very transaction the helper
   saw, on the helper's own storage, and the replacement was read after its publication.
   */
  lemma HandOverReachesItsTransaction(run: seq<State>, steps: seq<Step>, i: nat, t: nat)
    requires IsRun(run, steps) && i < |run| && InHelp(run[i], t) && run[i].threads[t].op.pc.h.HCas?
    requires run[i].nodes[Who(run[i], t)].control == Gen(run[i].threads[t].op.pc.h.g)
    ensures var s := run[i]; var n, o := Who(s, t), s.threads[t].op; var h := o.pc.h;
      && |s.nodes| == |s.threads| && n != t && s.nodes[n].gen == h.g
      && s.threads[n].load.Loading? && TxPc(s.threads[n].load.pc) && s.threads[n].load.a == o.a
      && s.threads[n].load.start <= s.nodes[n].since && InLog(s, o.a, s.nodes[n].since, h.rlin, h.rptr)
      && h.mine < |s.envs| && s.envs[h.mine] == h.rptr
      && h.mine == Envelope(s, t) && h.their == Envelope(s, n)
  {
    RunsInv(run, steps, i);
    var s := run[i];
    assert ThreadOk(s, t);
    assert ThreadOk(s, Who(s, t));
  }

  /** A helped reader finds in the envelope what its helper has put there: the object of the claim it got. */
  lemma HelpedReaderReadsItsReplacement(run: seq<State>, steps: seq<Step>, i: nat, t: nat)
    requires IsRun(run, steps) && i < |run| && t < |run[i].threads|
    requires run[i].threads[t].load.Loading? && run[i].threads[t].load.pc.TakeEnv?
    ensures var s, pc := run[i], run[i].threads[t].load.pc;
      && pc.env < |s.envs| && pc.r < |s.book.claims|
      && s.book.claims[pc.r] == Claim(s.envs[pc.env], Owned, Thread(t, LoadRepl))
  {
    RunsInv(run, steps, i);
    assert ThreadOk(run[i], t);
    Served(run[i], t, LoadRepl);
  }

  /** No transaction published before an exchange is open on a node whose `help` the writer has left. */
  lemma NobodyIsLeftBehind(run: seq<State>, steps: seq<Step>, i: nat, w: nat, n: nat)
    requires IsRun(run, steps) && i < |run| && w < |run[i].threads| && run[i].threads[w].op.Pay?
    requires OpenTx(run[i], n) && run[i].threads[n].load.a == run[i].threads[w].op.a
    requires !Unhelped(run[i].threads[w].op, n)
    ensures run[i].threads[w].op.at < run[i].nodes[n].since
  {
    RunsInv(run, steps, i);
    assert Younger(run[i], w, n);
  }

  // ---- Envelopes ----

  lemma {:induction false} Pigeonhole(xs: set<nat>, n: nat)
    requires (forall x :: x in xs ==> x < n) && |xs| == n
    ensures forall x: nat :: x < n ==> x in xs
  {
    if n > 0 {
      if n - 1 in xs {
        Pigeonhole(xs - {n - 1}, n - 1);
      } else {
        Bounded(xs, n - 1);
        assert false;
      }
    }
  }

  lemma {:induction false} Bounded(xs: set<nat>, n: nat)
    requires forall x :: x in xs ==> x < n
    ensures |xs| <= n
  {
    if n == 0 {
      assert xs == {};
    } else {
      Bounded(xs - {n - 1}, n - 1);
    }
  }

  /** The envelopes of the first `k` nodes. */
  ghost function Taken(s: State, k: nat): set<nat>
    requires |s.nodes| == |s.threads| && k <= |s.threads|
  {
    set n: nat | n < k :: Envelope(s, n)
  }

  lemma {:induction false} EnvelopesTaken(s: State, k: nat)
    requires EnvelopesOk(s) && k <= |s.threads|
    ensures |Taken(s, k)| == k
  {
    if k == 0 {
      assert Taken(s, 0) == {};
    } else {
      EnvelopesTaken(s, k - 1);
      assert Taken(s, k) == Taken(s, k - 1) + {Envelope(s, k - 1)};
      assert Envelope(s, k - 1) !in Taken(s, k - 1);
    }
  }

  /** Nodes and envelopes are in bijection, in flight or not. */
  lemma EnvelopesInBijection(run: seq<State>, steps: seq<Step>, i: nat)
    requires IsRun(run, steps) && i < |run|
    ensures var s := run[i];
      && |s.nodes| == |s.threads| == |s.envs|
      && (forall m, n :: 0 <= m < n < |s.threads| ==> Envelope(s, m) != Envelope(s, n))
      && (forall e: nat :: e < |s.envs| <==> e in Taken(s, |s.threads|))
  {
    RunsInv(run, steps, i);
    var s := run[i];
    EnvelopesTaken(s, |s.threads|);
    Pigeonhole(Taken(s, |s.threads|), |s.envs|);
  }

  // ---- Progress ----

  /** Whoever is in the middle of something can go on at once. */
  lemma NobodyWaits(run: seq<State>, steps: seq<Step>, i: nat, t: nat)
    requires IsRun(run, steps) && i < |run| && Busy(run[i], t)
    ensures CanRun(run[i], t)
  {
    RunsInv(run, steps, i);
    var s := run[i];
    assert ThreadOk(s, t);
    if s.threads[t].load.Loading? { LoadReady(s, t); }
    else if Unattached(s.threads[t].op) {}
    else if s.threads[t].op.Pay? { PayReady(s, t); }
    else { CasReady(s, t); }
  }

  const MAX_LOAD_STEPS := 30

  /** A bound on the steps a load still has to take. */
  function LoadRank(l: Load): nat {
    if l.NoLoad? then 0 else
    match l.pc
    case ReadPtr => MAX_LOAD_STEPS
    case ScanFast(_, _, i) => 21 + if i < FAST_SLOTS then FAST_SLOTS - i else 0
    case PutFast(_, _, _) => 20
    case Recheck(_, _, _) => 19
    case GiveBack(_, _, _) => 18
    case Publish => 17
    case Open => 16
    case ReadCand => 15
    case PutCand(_, _) => 14
    case Close(_, _, _) => 13
    case OwnInc(_, _, _) => 12
    case OwnPay(_, _, _, _) => 11
    case OwnDec(_, _, _, _) => 10
    case TakeEnv(_, _, _, _, _, _) => 12
    case StoreOffer(_, _, _, _, _, _) => 11
    case DropCand(_, _, _, _, _) => 10
    case DecCand(_, _, _, _, _) => 9
    case Done(_, _, _) => 1
  }

  lemma FastStepRanks(s: State, t: nat)
    requires CanLoad(s, t) && FastPc(s.threads[t].load.pc)
    ensures t < |RunLoad(s, t).threads| && LoadRank(RunLoad(s, t).threads[t].load) < LoadRank(s.threads[t].load)
  {
  }

  lemma FallbackStepRanks(s: State, t: nat)
    requires CanLoad(s, t) && ControlOk(s, t) && FallbackPc(s.threads[t].load.pc)
    ensures t < |RunLoad(s, t).threads| && LoadRank(RunLoad(s, t).threads[t].load) < LoadRank(s.threads[t].load)
  {
  }

  lemma OwnStepRanks(s: State, t: nat)
    requires CanLoad(s, t) && !FastPc(s.threads[t].load.pc) && !FallbackPc(s.threads[t].load.pc)
    ensures t < |RunLoad(s, t).threads| && LoadRank(RunLoad(s, t).threads[t].load) < LoadRank(s.threads[t].load)
  {
  }

  lemma LoadStepRanks(s: State, t: nat)
    requires CanLoad(s, t) && ControlOk(s, t)
    ensures t < |RunLoad(s, t).threads| && LoadRank(RunLoad(s, t).threads[t].load) < LoadRank(s.threads[t].load)
  {
    if FastPc(s.threads[t].load.pc) { FastStepRanks(s, t); }
    else if FallbackPc(s.threads[t].load.pc) { FallbackStepRanks(s, t); }
    else { OwnStepRanks(s, t); }
  }

  /** How often thread `t` acts in the steps from `i` to `j`. */
  function OwnSteps(steps: seq<Step>, t: nat, i: nat, j: nat): nat
    requires i <= j <= |steps|
    decreases j
  {
    if i == j then 0 else OwnSteps(steps, t, i, j - 1) + if steps[j - 1] == Run(t) then 1 else 0
  }

  ghost predicate RanksDown(run: seq<State>, steps: seq<Step>, t: nat, k: nat) {
    && k < |steps| && |run| == |steps| + 1 && t < |run[k].threads| && t < |run[k + 1].threads|
    && LoadRank(run[k + 1].threads[t].load) + (if steps[k] == Run(t) then 1 else 0) <= LoadRank(run[k].threads[t].load)
  }

  lemma StepRank(run: seq<State>, steps: seq<Step>, t: nat, k: nat)
    requires IsRun(run, steps) && k < |steps| && t < |run[k].threads| && run[k].threads[t].load.Loading?
    ensures RanksDown(run, steps, t, k)
  {
    RunsInv(run, steps, k);
    assert StepAt(run, steps, k);
    var s, step := run[k], steps[k];
    assert ThreadOk(s, t);
    if step.Run? {
      if step.t == t { LoadStepRanks(s, t); } else { Linearizability.OtherThread(s, step.t, t); }
    }
  }

  lemma {:induction false} RankChain(run: seq<State>, steps: seq<Step>, t: nat, i: nat, j: nat)
    requires |run| == |steps| + 1 && i <= j < |run| && t < |run[i].threads| && t < |run[j].threads|
    requires forall k: nat :: i <= k < j ==> RanksDown(run, steps, t, k)
    ensures OwnSteps(steps, t, i, j) + LoadRank(run[j].threads[t].load) <= LoadRank(run[i].threads[t].load)
    decreases j
  {
    if i < j {
      assert RanksDown(run, steps, t, j - 1);
      RankChain(run, steps, t, i, j - 1);
    }
  }

  lemma FlightRanks(run: seq<State>, steps: seq<Step>, t: nat, i: nat, j: nat)
    requires IsRun(run, steps) && Linearizability.InFlight(run, t, i, j)
    ensures forall k: nat :: i + 1 <= k < j ==> RanksDown(run, steps, t, k)
  {
    forall k: nat | i + 1 <= k < j ensures RanksDown(run, steps, t, k) { StepRank(run, steps, t, k); }
  }

  lemma FewSteps(run: seq<State>, steps: seq<Step>, t: nat, i: nat, j: nat)
    requires |run| == |steps| + 1 && Linearizability.InFlight(run, t, i, j)
    requires forall k: nat :: i + 1 <= k < j ==> RanksDown(run, steps, t, k)
    ensures OwnSteps(steps, t, i + 1, j) < MAX_LOAD_STEPS
  {
    RankChain(run, steps, t, i + 1, j);
  }

  /** A load is through after at most `MAX_LOAD_STEPS` steps of its own thread, whatever the others do. */
  lemma LoadsAreWaitFree(run: seq<State>, steps: seq<Step>, t: nat, i: nat, j: nat)
    requires IsRun(run, steps) && Linearizability.InFlight(run, t, i, j)
    ensures OwnSteps(steps, t, i + 1, j) < MAX_LOAD_STEPS
  {
    FlightRanks(run, steps, t, i, j);
    FewSteps(run, steps, t, i, j);
  }

  /** Each extra round of `help` sees a younger transaction on that node. */
  lemma HelpRoundsAreCharged(run: seq<State>, steps: seq<Step>, i: nat, t: nat)
    requires IsRun(run, steps) && i < |steps| && StepAt(run, steps, i) && steps[i] == Run(t) && InHelp(run[i], t)
    requires run[i].threads[t].load.NoLoad?
    requires run[i].threads[t].op.pc.h.HRecheck? || run[i].threads[t].op.pc.h.HCas?
    ensures var s, o' := run[i], run[i + 1].threads[t].op; var g, n := s.threads[t].op.pc.h.g, Who(s, t);
      o'.Pay? && o'.pc.Helping? ==>
        && (o'.pc.h.HAddr? ==> g < o'.pc.h.g && s.nodes[n].control == Gen(o'.pc.h.g))
        && (o'.pc.h.HDrop? && o'.pc.h.next.Some? ==>
          g < o'.pc.h.next.value && s.nodes[n].control == Gen(o'.pc.h.next.value))
  {
    RunsInv(run, steps, i);
    var s := run[i];
    assert ThreadOk(s, t);
    assert ThreadOk(s, Who(s, t));
  }
}
