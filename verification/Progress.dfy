/**
 Progress of writers. Each step of a walk through `pay_all` brings the writer closer to its end, but for those that
 begin another round of `help`; each step of `compare_and_swap` does, but for those that begin another attempt.
 */
module Progress {
  import opened Ledger
  import opened Machine
  import opened Protocol
  import opened Invariant
  import opened Handshake

  function HelpRank(h: HelpPc): nat {
    match h
    case HRead => 12
    case HAddr(_) => 11
    case HRecheck(_) => 10
    case HLoad(_) => 10
    case HTheir(_, _, _, _) => 9
    case HMine(_, _, _, _, _) => 8
    case HFill(_, _, _, _, _, _) => 7
    case HCas(_, _, _, _, _, _) => 6
    case HStore(_) => 5
    case HDrop(_, _, _) => 5
  }

  const NODE_STEPS := 60

  /** A bound on the steps that are left of a walk, without nested loads and further rounds of `help`. */
  function WalkRank(pc: PayPc): nat {
    match pc
    case Helping(_, rest, h) => NODE_STEPS * |rest| + 40 + HelpRank(h)
    case PaySlot(_, rest, i) => NODE_STEPS * |rest| + (if i <= HELPING then 2 * (HELPING - i) else 0) + 4
    case PaySlotInc(rest, i) => NODE_STEPS * |rest| + (if i <= HELPING then 2 * (HELPING - i) else 0) + 3
    case PayEnd(_) => 2
    case PayRet => 1
    case _ => 0
  }

  /** On the walk over the list, or behind it. */
  predicate Walking(th: ThreadState) {
    th.op.Pay? && (SubPc(th.op.pc) || th.op.pc.PayEnd? || th.op.pc.PayRet?)
  }

  function WriterRank(th: ThreadState): nat {
    if th.op.Pay? then (MAX_LOAD_STEPS + 1) * WalkRank(th.op.pc) + LoadRank(th.load) else 0
  }

  /** The writer begins another round of `help` on the same node. */
  predicate AnotherRound(o: Op, o': Op) {
    && o.Pay? && o.pc.Helping? && (o.pc.h.HRecheck? || o.pc.h.HDrop?)
    && o'.Pay? && o'.pc.Helping? && o'.pc.rest == o.pc.rest && o'.pc.h.HAddr?
  }

  ghost predicate Closer(th: ThreadState, th': ThreadState) {
    th'.op.Ready? || AnotherRound(th.op, th'.op) || (Walking(th') && WriterRank(th') < WriterRank(th))
  }

  lemma HelpCloser(s: State, t: nat)
    requires CanHelp(s, t) && s.threads[t].load.NoLoad?
    ensures t < |RunHelp(s, t).threads| && Closer(s.threads[t], RunHelp(s, t).threads[t])
  {
  }

  lemma PayCloser(s: State, t: nat)
    requires CanPay(s, t) && s.threads[t].load.NoLoad? && ShapeOk(s, t) && Walking(s.threads[t])
    ensures t < |RunPay(s, t).threads| && Closer(s.threads[t], RunPay(s, t).threads[t])
  {
    if s.threads[t].op.pc.Helping? { HelpCloser(s, t); }
  }

  lemma NestedCloser(s: State, t: nat)
    requires CanLoad(s, t) && ShapeOk(s, t) && t < |s.nodes| && ControlOk(s, t) && Walking(s.threads[t])
    ensures t < |RunLoad(s, t).threads| && Closer(s.threads[t], RunLoad(s, t).threads[t])
  {
    LoadStepRanks(s, t);
    if !s.threads[t].load.pc.Done? { LoadStepMoves(s, t); }
  }

  /**
   Each step of a writer on its walk brings it closer to the end, by a measure that counts nodes, slots and the steps of
   nested loads, or begins another round of `help`.
   */
  lemma WritersGoOn(run: seq<State>, steps: seq<Step>, j: nat, t: nat)
    requires IsRun(run, steps) && j < |steps| && steps[j] == Run(t) && t < |run[j].threads|
    requires Walking(run[j].threads[t])
    ensures t < |run[j + 1].threads| && Closer(run[j].threads[t], run[j + 1].threads[t])
  {
    RunsInv(run, steps, j);
    assert StepAt(run, steps, j) && ThreadOk(run[j], t);
    if run[j].threads[t].load.Loading? { NestedCloser(run[j], t); } else { PayCloser(run[j], t); }
  }

  // ---- compare_and_swap ----

  function CasRank(th: ThreadState): nat {
    match th.op
    case CasLoad(_, _, _, _) => 5 + LoadRank(th.load)
    case CasTry(_, _, _, _, _, _) => 4
    case CasDropPay(_, _, _, _, _) => 3
    case CasDropDec(_, _, _, _, _) => 2
    case CasMiss(_, _, _, _, _, _, _) => 1
    case _ => 0
  }

  predicate Attempting(o: Op) {
    o.CasLoad? || CasOp(o)
  }

  /** The step returns, has exchanged, or brings the attempt closer to its end; or the attempt is over. */
  ghost predicate AttemptCloser(th: ThreadState, th': ThreadState) {
    || th'.op.Ready? || th'.op.Pay?
    || (Attempting(th'.op) && CasRank(th') < CasRank(th))
    || ((th.op.CasDropPay? || th.op.CasDropDec?) && th'.op.CasLoad?)
  }

  lemma TryCloser(s: State, t: nat)
    requires CanCas(s, t)
    ensures t < |RunCas(s, t).threads| && AttemptCloser(s.threads[t], RunCas(s, t).threads[t])
  {
  }

  lemma LoadCloser(s: State, t: nat)
    requires CanLoad(s, t) && t < |s.nodes| && ControlOk(s, t) && s.threads[t].op.CasLoad?
    ensures t < |RunLoad(s, t).threads| && AttemptCloser(s.threads[t], RunLoad(s, t).threads[t])
  {
    LoadStepRanks(s, t);
    if !s.threads[t].load.pc.Done? { LoadStepMoves(s, t); }
  }

  /** Each step of an attempt of `compare_and_swap` brings it closer to its end. */
  lemma AttemptsGoOn(run: seq<State>, steps: seq<Step>, j: nat, t: nat)
    requires IsRun(run, steps) && j < |steps| && steps[j] == Run(t) && t < |run[j].threads|
    requires Attempting(run[j].threads[t].op)
    ensures t < |run[j + 1].threads| && AttemptCloser(run[j].threads[t], run[j + 1].threads[t])
  {
    RunsInv(run, steps, j);
    assert StepAt(run, steps, j) && ThreadOk(run[j], t);
    if run[j].threads[t].load.Loading? { LoadCloser(run[j], t); } else { TryCloser(run[j], t); }
  }
}
