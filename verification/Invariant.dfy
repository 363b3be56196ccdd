/**
 The invariant of the whole protocol, and that every step of every thread keeps it.
 */
module Invariant {
  import opened Ledger
  import opened Machine
  import opened Ownership
  import opened Protocol
  import opened Envelopes
  import opened Backing
  import opened History

  ghost predicate Inv(s: State) {
    && Sane(s)
    && Balanced(s.book)
    && AllHeld(s)
    && ThreadsOk(s)
    && EnvelopesOk(s)
    && ListOk(s)
    && DebtsBacked(s)
    && CandidatesBacked(s)
    && LogsOk(s)
    && EventsOk(s)
    && WritersOk(s)
    && NoneLeftBehind(s)
    && PtrsKnown(s)
  }

  /** Storages have only ever had allocated objects. */
  ghost predicate PtrsKnown(s: State) {
    forall a, i :: 0 <= a < |s.storages| && 0 <= i < |s.storages[a].log| ==> s.storages[a].log[i].ptr < |s.book.cnt|
  }

  // ---- Nobody is ever stuck: what the next step needs is there ----

  lemma LoadReady(s: State, t: nat)
    requires Sane(s) && Balanced(s.book) && AllHeld(s) && t < |s.threads| && LoadOk(s, t) && s.threads[t].load.Loading?
    ensures CanLoad(s, t)
  {
    var th := s.threads[t];
    if ThreadExpects(th, t, LoadClaim).Some? { Served(s, t, LoadClaim); }
    if ThreadExpects(th, t, LoadOwned).Some? { Served(s, t, LoadOwned); }
    if ThreadExpects(th, t, LoadRepl).Some? { Served(s, t, LoadRepl); }
    if s.nodes[t].control.Repl? {
      assert Holds(s.book.claims, Word(t), Expecting(s)(Word(t)).value);
    }
  }

  lemma HelpReady(s: State, t: nat)
    requires Sane(s) && Balanced(s.book) && AllHeld(s) && EnvelopesOk(s) && InHelp(s, t) && ThreadOk(s, t)
    requires s.threads[t].load.NoLoad?
    ensures CanHelp(s, t)
  {
    if ThreadExpects(s.threads[t], t, Replacement).Some? { Served(s, t, Replacement); }
    assert Envelope(s, t) < |s.envs|;
  }

  lemma PayReady(s: State, t: nat)
    requires Sane(s) && Balanced(s.book) && AllHeld(s) && EnvelopesOk(s) && t < |s.threads| && ThreadOk(s, t)
    requires s.threads[t].op.Pay? && s.threads[t].load.NoLoad? && !Unattached(s.threads[t].op)
    ensures CanPay(s, t)
  {
    var th := s.threads[t];
    Served(s, t, Val);
    if ThreadExpects(th, t, Prepaid).Some? { Served(s, t, Prepaid); }
    if ThreadExpects(th, t, OldGuard).Some? { Served(s, t, OldGuard); }
    if th.op.pc.Helping? {
      assert th.op.pc.rest[0] in th.op.pc.rest;
      HelpReady(s, t);
    }
  }

  lemma CasReady(s: State, t: nat)
    requires Sane(s) && Balanced(s.book) && AllHeld(s) && t < |s.threads| && ShapeOk(s, t) && CasOp(s.threads[t].op)
    ensures CanCas(s, t)
  {
    Served(s, t, OldGuard);
    Served(s, t, NewVal);
    assert Holds(s.book.claims, Cell(s.threads[t].op.a), Expecting(s)(Cell(s.threads[t].op.a)).value);
  }

  // ---- Balance ----

  /** The helping slot is in use only by a load that has just put its candidate there. */
  lemma HelpingSlotUser(s: State, t: nat)
    requires SlotsFilled(s.book) && AllHeld(s) && t < |s.threads|
    requires SlotId(t, HELPING) in s.book.slots && s.book.slots[SlotId(t, HELPING)].val.Some?
    ensures var e := LoadClaimOf(s.threads[t].load, t); e.Some? && (e.value.want.WHelp? || e.value.want.WConfirmed?)
  {
    var f := s.book.slots[SlotId(t, HELPING)].filler;
    var cs, ex := s.book.claims, Expecting(s);
    assert Placed(cs, ex, f);
    assert Holds(cs, cs[f].holder, ex(cs[f].holder).value);
  }

  lemma FastStepBalanced(s: State, t: nat)
    requires Balanced(s.book) && AllHeld(s) && Sane(s) && CanLoad(s, t) && LoadOk(s, t) && FastPc(s.threads[t].load.pc)
    requires s.threads[t].load.pc.PutFast? ==> s.threads[t].load.pc.ptr < |s.book.cnt|
    ensures Balanced(RunLoad(s, t).book)
  {
    var b, th := s.book, s.threads[t];
    if ThreadExpects(th, t, LoadClaim).Some? { Served(s, t, LoadClaim); }
    match th.load.pc
    case PutFast(p, _, i) => PlaceBalanced(b, SlotId(t, i), p, Thread(t, LoadClaim));
    case Recheck(_, _, c) => ConfirmBalanced(b, c);
    case GiveBack(_, _, c) => PayOwnBalanced(b, c);
    case _ =>
  }

  lemma TxStepBalanced(s: State, t: nat)
    requires Balanced(s.book) && AllHeld(s) && Sane(s) && CanLoad(s, t) && TxPc(s.threads[t].load.pc)
    requires s.threads[t].load.pc.PutCand? ==> s.threads[t].load.pc.ptr < |s.book.cnt|
    ensures Balanced(RunLoad(s, t).book)
  {
    var b := s.book;
    match s.threads[t].load.pc
    case PutCand(p, _) =>
      if b.slots[SlotId(t, HELPING)].val.Some? { HelpingSlotUser(s, t); }
      PlaceBalanced(b, SlotId(t, HELPING), p, Thread(t, LoadClaim));
    case Close(_, _, c) =>
      ConfirmBalanced(b, c);
      if s.nodes[t].control.Repl? { MoveBalanced(b, s.nodes[t].control.claim, Thread(t, LoadRepl)); }
    case _ =>
  }

  lemma DeliverBalanced(s: State, t: nat)
    requires Balanced(s.book) && CanLoad(s, t) && s.threads[t].load.pc.Done?
    ensures Balanced(RunLoad(s, t).book)
  {
    var h := match s.threads[t].op
      case CasLoad(_, _, _, _) => Thread(t, OldGuard)
      case Pay(_, _, _, _, _, Helping(_, _, HLoad(_))) => Thread(t, Replacement)
      case _ => User;
    MoveBalanced(s.book, s.threads[t].load.pc.c, h);
  }

  lemma LoadStepBalanced(s: State, t: nat)
    requires Balanced(s.book) && AllHeld(s) && Sane(s) && CanLoad(s, t) && LoadOk(s, t)
    requires s.threads[t].load.pc.PutFast? || s.threads[t].load.pc.PutCand? ==> s.threads[t].load.pc.ptr < |s.book.cnt|
    ensures Balanced(RunLoad(s, t).book)
  {
    var b, th := s.book, s.threads[t];
    if FastPc(th.load.pc) { FastStepBalanced(s, t); }
    else if TxPc(th.load.pc) { TxStepBalanced(s, t); }
    else if th.load.pc.Done? { DeliverBalanced(s, t); }
    else { OwnStepBalanced(s, t); }
  }

  /** The steps of `into_inner`, and of a helped load with its unused candidate. */
  lemma OwnStepBalanced(s: State, t: nat)
    requires Balanced(s.book) && AllHeld(s) && CanLoad(s, t)
    requires var pc := s.threads[t].load.pc; !FastPc(pc) && !TxPc(pc) && !pc.Done?
    ensures Balanced(RunLoad(s, t).book)
  {
    var b, th := s.book, s.threads[t];
    if ThreadExpects(th, t, LoadClaim).Some? { Served(s, t, LoadClaim); }
    match th.load.pc
    case OwnInc(p, _, _) => IncBalanced(b, p, Thread(t, LoadOwned));
    case OwnPay(_, _, c, d) =>
      PayOwnBalanced(b, c);
      MoveBalanced(PayOwn(b, c), d, Thread(t, LoadClaim));
    case OwnDec(_, _, c, d) =>
      DecBalanced(b, c);
      MoveBalanced(Dec(b, c), d, Thread(t, LoadClaim));
    case DropCand(_, c, r, _, _) =>
      PayOwnBalanced(b, c);
      MoveBalanced(PayOwn(b, c), r, Thread(t, LoadClaim));
    case DecCand(_, c, r, _, _) =>
      DecBalanced(b, c);
      MoveBalanced(Dec(b, c), r, Thread(t, LoadClaim));
    case _ =>
  }

  lemma PayStepBalanced(s: State, t: nat)
    requires Balanced(s.book) && AllHeld(s) && CanPay(s, t)
    ensures Balanced(RunPay(s, t).book)
  {
    var b, o := s.book, s.threads[t].op;
    Served(s, t, Val);
    if PrepaidOf(o).Some? { Served(s, t, Prepaid); }
    if ReplacementOf(o).Some? { Served(s, t, Replacement); }
    match o.pc
    case PayInc => IncBalanced(b, o.gone, Thread(t, Prepaid));
    case PaySlotInc(_, _) => IncBalanced(b, o.gone, Thread(t, Prepaid));
    case PaySlot(pre, rest, i) => PayForBalanced(b, SlotId(rest[0], i), pre);
    case PayEnd(pre) => DecBalanced(b, pre);
    case PayRet =>
      MoveBalanced(b, o.val, User);
      DecBalanced(b, o.val);
      if o.after.RetGuard? { MoveBalanced(Dec(b, o.val), o.after.guard, User); }
    case Helping(_, _, h) =>
      if h.HCas? { MoveBalanced(b, h.r, Word(Who(s, t))); }
      if h.HDrop? { DecBalanced(b, h.r); }
    case _ =>
  }

  lemma InstallBalanced(b: Book, c: nat, h: Holder, d: nat, k: Holder)
    requires Balanced(b) && c < |b.claims| && d < |b.claims|
    ensures Balanced(Move(Move(b, c, h), d, k))
  {
    MoveBalanced(b, c, h);
    MoveBalanced(Move(b, c, h), d, k);
  }

  lemma CasStepBalanced(s: State, t: nat)
    requires Balanced(s.book) && AllHeld(s) && CanCas(s, t)
    ensures Balanced(RunCas(s, t).book)
  {
    var b, o := s.book, s.threads[t].op;
    Served(s, t, OldGuard);
    Served(s, t, NewVal);
    match o
    case CasTry(a, _, neu, _, _, _) => InstallBalanced(b, s.storages[a].claim, Thread(t, Val), neu, Cell(a));
    case CasDropPay(_, _, _, _, guard) => PayOwnBalanced(b, guard);
    case CasDropDec(_, _, _, _, guard) => DecBalanced(b, guard);
    case CasMiss(_, _, neu, _, guard, _, _) =>
      DecBalanced(b, neu);
      MoveBalanced(Dec(b, neu), guard, User);
  }

  lemma OuterStepBalanced(s: State, step: Step)
    requires Balanced(s.book) && Enabled(s, step) && !step.Run? && !step.SpuriousFail?
    ensures Balanced(Next(s, step).book)
  {
    var b := s.book;
    match step
    case LoadFrom(_, _) =>
    case SwapIn(t, a, c) => InstallBalanced(b, s.storages[a].claim, Thread(t, Val), c, Cell(a));
    case CompareAndSwap(t, _, _, c) => MoveBalanced(b, c, Thread(t, NewVal));
    case TakeOut(t, a, _) => MoveBalanced(b, s.storages[a].claim, Thread(t, Val));
    case NewStorage(c, _) => MoveBalanced(b, c, Cell(|s.storages|));
    case NewObject => AllocBalanced(b, User);
    case Clone(c) => IncBalanced(b, b.claims[c].ptr, User);
    case ReturnDebt(c) => PayOwnBalanced(b, c);
    case Release(c) => DecBalanced(b, c);
  }

  // ---- Sanity ----

  ghost predicate KeysKept(b: Book, b': Book) {
    |b.cnt| <= |b'.cnt| && forall x :: x in b.slots ==> x in b'.slots
  }

  /** Logs only grow, and by known objects. */
  ghost predicate LogsKept(s: State, s': State) {
    && |s.storages| <= |s'.storages|
    && (forall a :: 0 <= a < |s.storages| ==>
      || (s'.storages[a].log == s.storages[a].log && s'.storages[a].ptr == s.storages[a].ptr)
      || (s'.storages[a].ptr < |s'.book.cnt|
          && exists e :: s'.storages[a].log == s.storages[a].log + [Write(s'.storages[a].ptr, e)]))
    && (forall a :: |s.storages| <= a < |s'.storages| ==>
      s'.storages[a].log == [Write(s'.storages[a].ptr, None)] && s'.storages[a].ptr < |s'.book.cnt|)
  }

  lemma SaneStep(s: State, s': State)
    requires Sane(s) && PtrsKnown(s) && KeysKept(s.book, s'.book) && LogsKept(s, s')
    requires |s'.threads| == |s.threads| && |s'.nodes| == |s.nodes| && |s'.envs| == |s.envs|
    ensures Sane(s') && PtrsKnown(s')
  {
  }

  lemma LoadStepSane(s: State, t: nat)
    requires Sane(s) && PtrsKnown(s) && CanLoad(s, t)
    ensures Sane(RunLoad(s, t)) && PtrsKnown(RunLoad(s, t))
  {
    var s' := RunLoad(s, t);
    assert KeysKept(s.book, s'.book);
    if !s.threads[t].load.pc.Done? { LoadStepMoves(s, t); }
    SaneStep(s, s');
  }

  lemma PayStepSane(s: State, t: nat)
    requires Sane(s) && PtrsKnown(s) && CanPay(s, t)
    ensures Sane(RunPay(s, t)) && PtrsKnown(RunPay(s, t))
  {
    assert KeysKept(s.book, RunPay(s, t).book);
    SaneStep(s, RunPay(s, t));
  }

  lemma CasStepSane(s: State, t: nat)
    requires Sane(s) && PtrsKnown(s) && CanCas(s, t) && AllHeld(s) && Balanced(s.book)
    ensures Sane(RunCas(s, t)) && PtrsKnown(RunCas(s, t))
  {
    Served(s, t, NewVal);
    assert KeysKept(s.book, RunCas(s, t).book);
    SaneStep(s, RunCas(s, t));
  }

  lemma OuterStepSane(s: State, step: Step)
    requires Sane(s) && PtrsKnown(s) && Enabled(s, step) && !step.Run? && !step.SpuriousFail?
    ensures Sane(Next(s, step)) && PtrsKnown(Next(s, step))
  {
    assert KeysKept(s.book, Next(s, step).book);
    SaneStep(s, Next(s, step));
  }

  // ---- Every step keeps the invariant ----

  /** The part of the invariant that a step shows directly. */
  ghost predicate Shown(s: State) {
    Sane(s) && PtrsKnown(s) && Balanced(s.book) && AllHeld(s) && EnvelopesOk(s) && ListOk(s) && LogsOk(s) && EventsOk(s)
  }

  /** What a step of thread `t` guarantees to everybody. */
  ghost predicate Guarantees(s: State, s': State, t: nat)
    requires Sane(s)
  {
    && Frame(s, s', t) && StoragesRespected(s, s', t)
    && (forall a :: 0 <= a < |s.storages| && s'.storages[a].alive ==> s.storages[a].alive)
    && (forall u :: 0 <= u < |s.threads| && u != t ==> EnvKept(s, s', u))
    && (t < |s.threads| ==>
      && OwnNodeStep(s, s', t) && WatchKept(s, s', t) && HelpKept(s, s', t)
      && SamePayer(s.threads[t].op, s'.threads[t].op) && SinceOk(s, s', t))
  }

  ghost predicate CandidateKept(s: State, s': State, t: nat) {
    OpenCandidate(s', t) ==>
      || SameCandidate(s, s', t)
      || Stores(s', s'.threads[t].load.a, s'.threads[t].load.pc.ptr)
  }

  lemma Kept(s: State, s': State, t: nat, k: nat)
    requires Inv(s) && Shown(s') && Guarantees(s, s', t)
    requires t < |s.threads| ==> ThreadOk(s', t) && WriterOk(s', t)
    requires NoNewDebts(s.book, s'.book, k) && CandidateKept(s, s', t)
    requires Confirmed(s'.book, k) && Owes(s'.book, k) ==> Backed(s', s'.book.claims[k].kind.at, s'.book.claims[k].ptr)
    ensures Inv(s')
  {
    AllThreadsOk(s, s', t);
    DebtsStep(s, s', t, k);
    CandidatesStep(s, s', t);
    assert LogsGrow(s, s') by {
      forall a | 0 <= a < |s.storages| ensures s.storages[a].log <= s'.storages[a].log {
        assert StorageGrows(s, s', t, a);
      }
    }
    OthersWrite(s, s', t);
    NoneLeftStep(s, s', t);
  }

  lemma LoadStepShown(s: State, t: nat)
    requires Inv(s) && CanLoad(s, t)
    ensures Shown(RunLoad(s, t))
  {
    assert ThreadOk(s, t) && WriterOk(s, t);
    LoadStepSane(s, t);
    LoadStepBalanced(s, t);
    LoadStepOwned(s, t);
    LoadStepSame(s, t);
    SameOk(s, RunLoad(s, t));
    LoadStepList(s, t);
    LoadStepHistory(s, t);
    LoadStepEvents(s, t);
  }

  lemma LoadStepGuarantees(s: State, t: nat)
    requires Inv(s) && CanLoad(s, t)
    ensures Guarantees(s, RunLoad(s, t), t)
  {
    assert ThreadOk(s, t) && WriterOk(s, t);
    LoadStepFrame(s, t);
    LoadStepRespects(s, t);
    LoadStepNode(s, t);
    LoadStepHistory(s, t);
    LoadStepSince(s, t);
    assert RunLoad(s, t).envs == s.envs by { if !s.threads[t].load.pc.Done? { LoadStepMoves(s, t); } }
  }

  lemma FewClaims(s: State, t: nat)
    requires CanLoad(s, t)
    ensures |RunLoad(s, t).book.claims| <= |s.book.claims| + 1
  {
  }

  lemma LoadStepConfirms(s: State, t: nat)
    requires Sane(s) && AllHeld(s) && CandidatesBacked(s) && CanLoad(s, t) && LoadOk(s, t)
    ensures var s', k := RunLoad(s, t), Confirming(s, t);
      Confirmed(s'.book, k) ==> Backed(s', s'.book.claims[k].kind.at, s'.book.claims[k].ptr)
  {
    var pc := s.threads[t].load.pc;
    if pc.Recheck? {
      Served(s, t, LoadClaim);
      RecheckBacked(s, t);
    } else if pc.Close? {
      Served(s, t, LoadClaim);
      CloseBacked(s, t);
    } else {
      FewClaims(s, t);
    }
  }

  lemma LoadStepInv(s: State, t: nat)
    requires Inv(s) && t < |s.threads| && s.threads[t].load.Loading?
    ensures CanLoad(s, t) && Inv(RunLoad(s, t))
  {
    assert ThreadOk(s, t) && WriterOk(s, t);
    LoadReady(s, t);
    LoadStepShown(s, t);
    LoadStepGuarantees(s, t);
    LoadStepOk(s, t);
    LoadStepHistory(s, t);
    LoadStepDebts(s, t);
    LoadStepConfirms(s, t);
    LoadStepCandidate(s, t);
    Kept(s, RunLoad(s, t), t, Confirming(s, t));
  }

  // ---- Writers ----

  predicate AtHelp(s: State, t: nat) {
    t < |s.threads| && s.threads[t].op.Pay? && s.threads[t].op.pc.Helping? && s.threads[t].load.NoLoad?
  }

  predicate AtPay(s: State, t: nat) {
    t < |s.threads| && s.threads[t].op.Pay? && !s.threads[t].op.pc.Helping? && s.threads[t].load.NoLoad?
  }

  lemma HelpStepEnvelopes(s: State, t: nat)
    requires Inv(s) && AtHelp(s, t) && CanHelp(s, t)
    ensures EnvelopesOk(RunHelp(s, t))
  {
    assert ThreadOk(s, t) && ThreadOk(s, Who(s, t));
    var h := s.threads[t].op.pc.h;
    if h.HCas? && s.nodes[Who(s, t)].control == Gen(h.g) {
      HandOver(s, t);
    } else {
      HelpStepSame(s, t);
      SameOk(s, RunHelp(s, t));
    }
  }

  lemma HelpStepShown(s: State, t: nat)
    requires Inv(s) && AtHelp(s, t) && CanHelp(s, t)
    ensures Shown(RunHelp(s, t))
  {
    assert ThreadOk(s, t) && WriterOk(s, t);
    assert CanPay(s, t) && RunPay(s, t) == RunHelp(s, t);
    PayStepSane(s, t);
    PayStepBalanced(s, t);
    PayStepOwned(s, t);
    HelpStepEnvelopes(s, t);
    HelpStepList(s, t);
    HelpStepHistory(s, t);
    HelpStepEvents(s, t);
  }

  lemma HelpStepGuarantees(s: State, t: nat)
    requires Inv(s) && AtHelp(s, t) && CanHelp(s, t)
    ensures Guarantees(s, RunHelp(s, t), t)
  {
    assert ThreadOk(s, t) && WriterOk(s, t) && ThreadOk(s, Who(s, t));
    assert CanPay(s, t) && RunPay(s, t) == RunHelp(s, t);
    HelpStepFrame(s, t);
    HelpStepWatches(s, t);
    HelpStepKeeps(s, t);
    PayStepNode(s, t);
    HelpStepHistory(s, t);
    FillKeeps(s, t);
  }

  lemma HelpStepSelf(s: State, t: nat)
    requires Inv(s) && AtHelp(s, t) && CanHelp(s, t)
    ensures var s' := RunHelp(s, t);
      && |s'.threads| == |s.threads| == |s'.nodes| && ThreadOk(s', t) && WriterOk(s', t)
      && NoNewDebts(s.book, s'.book, |s.book.claims|) && CandidateKept(s, s', t)
      && !Confirmed(s'.book, |s.book.claims|)
  {
    assert ThreadOk(s, t) && WriterOk(s, t) && ThreadOk(s, Who(s, t));
    HelpStepOk(s, t);
    HelpStepHistory(s, t);
    HelpStepDebts(s, t, |s.book.claims|);
  }

  lemma HelpStepInv(s: State, t: nat)
    requires Inv(s) && AtHelp(s, t) && CanHelp(s, t)
    ensures Inv(RunHelp(s, t))
  {
    HelpStepShown(s, t);
    HelpStepGuarantees(s, t);
    HelpStepSelf(s, t);
    Kept(s, RunHelp(s, t), t, |s.book.claims|);
  }

  lemma PayStepEnvelopes(s: State, t: nat)
    requires EnvelopesOk(s) && AtPay(s, t) && CanPay(s, t)
    ensures EnvelopesOk(RunPay(s, t))
  {
    OtherStepSame(s, RunPay(s, t));
    SameOk(s, RunPay(s, t));
  }

  lemma PayStepShown(s: State, t: nat)
    requires Inv(s) && AtPay(s, t) && CanPay(s, t)
    ensures Shown(RunPay(s, t))
  {
    assert ThreadOk(s, t) && WriterOk(s, t);
    PayStepSane(s, t);
    PayStepBalanced(s, t);
    PayStepOwned(s, t);
    PayStepEnvelopes(s, t);
    PayStepList(s, t);
    PayStepHistory(s, t);
    Served(s, t, Val);
    if s.threads[t].op.after.RetGuard? { Served(s, t, OldGuard); }
    PayStepEvents(s, t);
  }

  lemma PayStepGuarantees(s: State, t: nat)
    requires Inv(s) && AtPay(s, t) && CanPay(s, t)
    ensures Guarantees(s, RunPay(s, t), t)
  {
    assert ThreadOk(s, t) && WriterOk(s, t);
    if s.threads[t].op.pc.PaySlot? { Served(s, t, Prepaid); }
    PayStepFrame(s, t);
    PayStepWatches(s, t);
    PayStepKeeps(s, t);
    PayStepNode(s, t);
    PayStepHistory(s, t);
    assert RunPay(s, t).envs == s.envs;
  }

  lemma PayStepNoDebt(s: State, t: nat)
    requires CanPay(s, t) && !s.threads[t].op.pc.Helping?
    ensures NoNewDebts(s.book, RunPay(s, t).book, |s.book.claims| + 1)
    ensures !Confirmed(RunPay(s, t).book, |s.book.claims| + 1)
  {
    PayStepDebts(s, t, |s.book.claims| + 1);
  }

  lemma ScanStepInv(s: State, t: nat)
    requires Inv(s) && AtPay(s, t) && CanPay(s, t)
    ensures Inv(RunPay(s, t))
  {
    assert ThreadOk(s, t) && WriterOk(s, t);
    PayStepShown(s, t);
    PayStepGuarantees(s, t);
    PayStepOk(s, t);
    PayStepHistory(s, t);
    PayStepNoDebt(s, t);
    var s' := RunPay(s, t);
    assert !OpenCandidate(s', t);
    Kept(s, RunPay(s, t), t, |s.book.claims| + 1);
  }

  lemma PayStepInv(s: State, t: nat)
    requires Inv(s) && t < |s.threads| && s.threads[t].op.Pay? && s.threads[t].load.NoLoad?
    requires !Unattached(s.threads[t].op)
    ensures CanPay(s, t) && Inv(RunPay(s, t))
  {
    assert ThreadOk(s, t);
    PayReady(s, t);
    if s.threads[t].op.pc.Helping? { HelpStepInv(s, t); } else { ScanStepInv(s, t); }
  }

  // ---- Compare-and-swap ----

  lemma CasStepEnvelopes(s: State, t: nat)
    requires EnvelopesOk(s) && CanCas(s, t) && s.threads[t].load.NoLoad?
    ensures EnvelopesOk(RunCas(s, t))
  {
    OtherStepSame(s, RunCas(s, t));
    SameOk(s, RunCas(s, t));
  }

  lemma CasStepShown(s: State, t: nat)
    requires Inv(s) && CanCas(s, t) && s.threads[t].load.NoLoad?
    ensures Shown(RunCas(s, t))
  {
    assert ThreadOk(s, t) && WriterOk(s, t);
    CasStepSane(s, t);
    CasStepBalanced(s, t);
    CasStepOwned(s, t);
    CasStepEnvelopes(s, t);
    CasStepList(s, t);
    CasStepHistory(s, t);
    Served(s, t, OldGuard);
    CasStepEvents(s, t);
  }

  lemma CasStepGuarantees(s: State, t: nat)
    requires Inv(s) && CanCas(s, t) && s.threads[t].load.NoLoad?
    ensures Guarantees(s, RunCas(s, t), t)
  {
    assert ThreadOk(s, t) && WriterOk(s, t);
    CasStepFrame(s, t);
    CasStepRespects(s, t);
    CasStepOk(s, t);
    CasStepHistory(s, t);
    assert RunCas(s, t).envs == s.envs;
  }

  lemma CasStepSelf(s: State, t: nat)
    requires Inv(s) && CanCas(s, t) && s.threads[t].load.NoLoad?
    ensures var s' := RunCas(s, t);
      && |s'.threads| == |s.threads| == |s'.nodes| && ThreadOk(s', t) && WriterOk(s', t)
      && NoNewDebts(s.book, s'.book, |s.book.claims|) && CandidateKept(s, s', t)
      && !Confirmed(s'.book, |s.book.claims|)
  {
    assert ThreadOk(s, t) && WriterOk(s, t);
    CasStepOk(s, t);
    CasStepHistory(s, t);
    CasStepDebts(s, t, |s.book.claims|);
  }

  lemma CasStepInv(s: State, t: nat)
    requires Inv(s) && t < |s.threads| && CasOp(s.threads[t].op) && s.threads[t].load.NoLoad?
    ensures CanCas(s, t) && Inv(RunCas(s, t))
  {
    assert ThreadOk(s, t);
    CasReady(s, t);
    CasStepShown(s, t);
    CasStepGuarantees(s, t);
    CasStepSelf(s, t);
    Kept(s, RunCas(s, t), t, |s.book.claims|);
  }

  lemma CasFailShown(s: State, t: nat)
    requires Inv(s) && InCas(s, t) && s.threads[t].op.CasTry?
    ensures Shown(DoCasFail(s, t))
  {
    var s' := DoCasFail(s, t);
    assert ThreadOk(s, t);
    CasFailOwned(s, t);
    OtherStepSame(s, s');
    SameOk(s, s');
    QuietEvents(s, s', t);
  }

  lemma CasFailInv(s: State, t: nat)
    requires Inv(s) && InCas(s, t) && s.threads[t].op.CasTry?
    ensures Inv(DoCasFail(s, t))
  {
    assert ThreadOk(s, t) && WriterOk(s, t);
    CasFailShown(s, t);
    Kept(s, DoCasFail(s, t), t, |s.book.claims|);
  }

  // ---- The program around ----

  lemma AttachEvents(s: State, t: nat, weak: bool)
    requires Sane(s) && EventsOk(s) && EnvelopesOk(s) && t < |s.threads| && Unattached(s.threads[t].op)
    requires s.threads[t].load.NoLoad?
    ensures EventsOk(DoAttach(s, t, weak)) && EnvelopesOk(DoAttach(s, t, weak))
  {
    var s' := DoAttach(s, t, weak);
    OtherStepSame(s, s');
    SameOk(s, s');
    QuietEvents(s, s', t);
  }

  lemma AttachShown(s: State, t: nat, weak: bool)
    requires Inv(s) && t < |s.threads| && Unattached(s.threads[t].op)
    ensures Shown(DoAttach(s, t, weak))
  {
    assert ThreadOk(s, t);
    AttachOwned(s, t, weak);
    AttachRespects(s, t, weak);
    AttachEvents(s, t, weak);
  }

  lemma AttachGuarantees(s: State, t: nat, weak: bool)
    requires Inv(s) && t < |s.threads| && Unattached(s.threads[t].op)
    ensures Guarantees(s, DoAttach(s, t, weak), t)
  {
    assert ThreadOk(s, t);
    AttachRespects(s, t, weak);
    AttachOk(s, t, weak);
  }

  lemma AttachInv(s: State, t: nat, weak: bool)
    requires Inv(s) && t < |s.threads| && Unattached(s.threads[t].op)
    ensures Inv(DoAttach(s, t, weak))
  {
    var s' := DoAttach(s, t, weak);
    assert ThreadOk(s, t) && WriterOk(s, t);
    AttachShown(s, t, weak);
    AttachGuarantees(s, t, weak);
    AttachOk(s, t, weak);
    Kept(s, s', t, |s.book.claims|);
  }

  predicate Begins(step: Step) {
    step.LoadFrom? || step.SwapIn? || step.CompareAndSwap? || step.TakeOut?
  }

  predicate OfUser(step: Step) {
    step.NewStorage? || step.NewObject? || step.Clone? || step.ReturnDebt? || step.Release?
  }

  lemma BeginOwned(s: State, step: Step)
    requires AllHeld(s) && Enabled(s, step) && Begins(step)
    ensures AllHeld(Next(s, step))
  {
    match step
    case LoadFrom(t, a) => LoadFromOwned(s, t, a);
    case SwapIn(t, a, c) => InstallOwned(s, t, a, s.book.claims[c].ptr, c, None, RetOld(Some(s.book.claims[c].ptr)));
    case CompareAndSwap(t, a, cur, c) => CompareAndSwapOwned(s, t, a, cur, c);
    case TakeOut(t, a, destroy) => TakeOutOwned(s, t, a, destroy);
  }

  lemma BeginShown(s: State, step: Step)
    requires Inv(s) && Enabled(s, step) && Begins(step)
    ensures Shown(Next(s, step))
  {
    OuterStepSane(s, step);
    OuterStepBalanced(s, step);
    BeginOwned(s, step);
    OtherStepSame(s, Next(s, step));
    SameOk(s, Next(s, step));
    BeginList(s, step);
    BeginHistory(s, step);
    BeginEvents(s, step);
  }

  lemma BeginGuarantees(s: State, step: Step)
    requires Inv(s) && Enabled(s, step) && Begins(step)
    ensures Guarantees(s, Next(s, step), step.t)
  {
    assert ThreadOk(s, step.t);
    BeginFrame(s, step);
    BeginRespects(s, step, 0);
    assert Next(s, step).envs == s.envs;
    assert !OpenTx(Next(s, step), step.t);
  }

  lemma BeginInv(s: State, step: Step)
    requires Inv(s) && Enabled(s, step) && Begins(step)
    ensures Inv(Next(s, step))
  {
    BeginShown(s, step);
    BeginGuarantees(s, step);
    BeginOk(s, step);
    BeginHistory(s, step);
    BeginRespects(s, step, |s.book.claims|);
    Kept(s, Next(s, step), step.t, |s.book.claims|);
  }

  lemma UserOwned(s: State, step: Step)
    requires AllHeld(s) && Enabled(s, step) && OfUser(step)
    ensures AllHeld(Next(s, step))
  {
    if step.NewStorage? { NewStorageOwned(s, step.c, step.fast); } else { UserStepOwned(s, step); }
  }

  lemma UserShown(s: State, step: Step)
    requires Inv(s) && Enabled(s, step) && OfUser(step)
    ensures Shown(Next(s, step))
  {
    var s' := Next(s, step);
    OuterStepSane(s, step);
    OuterStepBalanced(s, step);
    UserOwned(s, step);
    OtherStepSame(s, s');
    SameOk(s, s');
    UserList(s, step);
    QuietEvents(s, s', |s.threads|);
  }

  lemma UserGuarantees(s: State, step: Step)
    requires Inv(s) && Enabled(s, step) && OfUser(step)
    ensures Guarantees(s, Next(s, step), |s.threads|) && !OpenCandidate(Next(s, step), |s.threads|)
  {
    UserFrame(s, step);
    UserRespects(s, step, 0);
  }

  lemma UserInv(s: State, step: Step)
    requires Inv(s) && Enabled(s, step) && OfUser(step)
    ensures Inv(Next(s, step))
  {
    UserShown(s, step);
    UserGuarantees(s, step);
    UserRespects(s, step, |s.book.claims| + 1);
    Kept(s, Next(s, step), |s.threads|, |s.book.claims| + 1);
  }

  lemma RunInv(s: State, t: nat)
    requires Inv(s) && CanRun(s, t)
    ensures Inv(RunThread(s, t))
  {
    if s.threads[t].load.Loading? { LoadStepInv(s, t); }
    else if Unattached(s.threads[t].op) { AttachInv(s, t, false); }
    else if s.threads[t].op.Pay? { PayStepInv(s, t); }
    else { CasStepInv(s, t); }
  }

  lemma StepInv(s: State, step: Step)
    requires Inv(s) && Enabled(s, step)
    ensures Inv(Next(s, step))
  {
    if step.Run? { RunInv(s, step.t); }
    else if step.SpuriousFail? {
      if Linking(s, step.t) { AttachInv(s, step.t, true); } else { CasFailInv(s, step.t); }
    }
    else if Begins(step) { BeginInv(s, step); }
    else { UserInv(s, step); }
  }

  lemma InitInv(s: State)
    requires Init(s)
    ensures Inv(s)
  {
    assert forall h :: Expecting(s)(h).None?;
    forall n | 0 <= n < |s.threads| ensures ThreadOk(s, n) && WriterOk(s, n) && Envelope(s, n) == n {}
  }

  /** The invariant holds in every state of every run. */
  lemma {:induction false} RunsInv(run: seq<State>, steps: seq<Step>, i: nat)
    requires IsRun(run, steps) && i < |run|
    ensures Inv(run[i])
  {
    if i == 0 {
      InitInv(run[0]);
    } else {
      RunsInv(run, steps, i - 1);
      assert StepAt(run, steps, i - 1);
      StepInv(run[i - 1], steps[i - 1]);
    }
  }
}
