/**
 The handshake: what each thread may rely on about control words, addresses, generations and the
 storage logs, at each of its program points.
 */
module Protocol {
  import opened Ledger
  import opened Machine

  /** Entry `lin` of the log of storage `a`, not older than `from`, is `p`. */
  ghost predicate InLog(s: State, a: nat, from: nat, lin: nat, p: Ptr) {
    a < |s.storages| && from <= lin < |s.storages[a].log| && s.storages[a].log[lin].ptr == p
  }

  /** The value a load holds, with the log entry it was read at. */
  ghost function ReadOf(pc: LoadPc): Option<(Ptr, nat)> {
    match pc
    case ScanFast(p, lin, _) => Some((p, lin))
    case PutFast(p, lin, _) => Some((p, lin))
    case Recheck(p, lin, _) => Some((p, lin))
    case GiveBack(p, lin, _) => Some((p, lin))
    case PutCand(p, lin) => Some((p, lin))
    case Close(p, lin, _) => Some((p, lin))
    case OwnInc(p, lin, _) => Some((p, lin))
    case OwnPay(p, lin, _, _) => Some((p, lin))
    case OwnDec(p, lin, _, _) => Some((p, lin))
    case TakeEnv(_, _, _, _, p, lin) => Some((p, lin))
    case StoreOffer(_, _, _, _, p, lin) => Some((p, lin))
    case DropCand(_, _, _, p, lin) => Some((p, lin))
    case DecCand(_, _, _, p, lin) => Some((p, lin))
    case Done(p, lin, _) => Some((p, lin))
    case _ => None
  }

  /** The program points between publishing a generation and taking it back. */
  predicate TxPc(pc: LoadPc) {
    pc.ReadCand? || pc.PutCand? || pc.Close?
  }

  ghost predicate LoadOk(s: State, t: nat)
    requires t < |s.threads|
  {
    var l := s.threads[t].load;
    l.Loading? ==>
      && l.a < |s.storages| && s.storages[l.a].alive && l.start < |s.storages[l.a].log|
      && (ReadOf(l.pc).Some? ==> InLog(s, l.a, l.start, ReadOf(l.pc).value.1, ReadOf(l.pc).value.0))
      && (l.pc.TakeEnv? ==> l.pc.env < |s.envs| && s.envs[l.pc.env] == l.pc.rptr)
      && (l.pc.PutFast? ==> l.pc.i < HELPING && SlotFree(s.book, SlotId(t, l.pc.i)))
  }

  ghost predicate SlotFree(b: Book, x: SlotId) {
    x in b.slots && b.slots[x].val.None?
  }

  /** A replacement in the control word of `t` was read from the right storage after the transaction was published. */
  ghost predicate GoodReplacement(s: State, t: nat)
    requires t < |s.threads| && t < |s.nodes| && s.threads[t].load.Loading?
  {
    var l, w := s.threads[t].load, s.nodes[t].control;
    w.Repl? && w.env < |s.envs| && s.envs[w.env] == w.ptr && InLog(s, l.a, s.nodes[t].since, w.lin, w.ptr)
  }

  /** The control word is idle outside of a transaction, and says what it should inside. */
  ghost predicate ControlOk(s: State, t: nat)
    requires t < |s.threads| && t < |s.nodes|
  {
    var l, nd := s.threads[t].load, s.nodes[t];
    if l.Loading? && TxPc(l.pc) then
      && nd.addr == l.a && l.a < |s.storages| && l.start <= nd.since < |s.storages[l.a].log|
      && (nd.control == Gen(nd.gen) || GoodReplacement(s, t))
    else nd.control == Idle && (l.Loading? && l.pc.Open? ==> nd.addr == l.a)
  }

  predicate SubPc(p: PayPc) {
    p.Helping? || p.PaySlot? || p.PaySlotInc?
  }

  /** How the operation of a thread and its load fit together. */
  ghost predicate ShapeOk(s: State, t: nat)
    requires t < |s.threads|
  {
    var l, o := s.threads[t].load, s.threads[t].op;
    && (l.Loading? <==> o.UserLoad? || o.CasLoad? || (o.Pay? && o.pc.Helping? && o.pc.h.HLoad?))
    && (o.UserLoad? ==> !l.own)
    && (o.CasLoad? ==> l.a == o.a && !l.own)
    && (o.Pay? ==> o.a < |s.storages|)
    && (o.Pay? && o.pc.Helping? && o.pc.h.HLoad? ==> l.a == o.a && l.own)
    && (o.Pay? && SubPc(o.pc) ==> o.pc.rest != [] && forall n :: n in o.pc.rest ==> n < |s.threads|)
    && (o.Pay? && (o.pc.PaySlot? || o.pc.PaySlotInc?) ==> o.pc.i <= HELPING)
    && (o.CasLoad? || o.CasTry? || o.CasDropPay? || o.CasDropDec? || o.CasMiss? ==>
      o.a < |s.storages| && s.storages[o.a].alive)
  }

  /** Generation `g` of node `n` has been seen: later transactions carry other generations. */
  ghost predicate Seen(s: State, n: nat, g: nat)
    requires n < |s.threads| && n < |s.nodes|
  {
    g <= s.nodes[n].gen && (s.threads[n].load.Loading? && s.threads[n].load.pc.Open? ==> g < s.nodes[n].gen)
  }

  /** If the transaction with generation `g` of node `n` is still open, it is on `a` and was published by `at`. */
  ghost predicate StillOn(s: State, n: nat, g: nat, a: nat, at: nat)
    requires n < |s.threads| && n < |s.nodes|
  {
    s.nodes[n].control == Gen(g) ==>
      s.threads[n].load.Loading? && s.threads[n].load.a == a && s.nodes[n].since <= at
  }

  /** What a helper knows about the node it looks at. */
  ghost predicate HelpOk(s: State, t: nat)
    requires t < |s.threads| && |s.nodes| == |s.threads|
  {
    var o := s.threads[t].op;
    o.Pay? && o.pc.Helping? && o.pc.rest != [] && o.pc.rest[0] < |s.threads| && o.a < |s.storages| ==>
      var n := o.pc.rest[0];
      match o.pc.h
      case HRead => true
      case HAddr(g) => n != t && Seen(s, n, g) && (s.storages[o.a].alive || s.nodes[n].addr != o.a)
      case HRecheck(g) =>
        && n != t && Seen(s, n, g)
        && (s.nodes[n].control == Gen(g) ==> s.threads[n].load.Loading? && s.threads[n].load.a != o.a)
      case HLoad(g) =>
        && n != t && Seen(s, n, g) && s.storages[o.a].alive
        && s.threads[t].load.Loading? && StillOn(s, n, g, o.a, s.threads[t].load.start)
      case HTheir(g, _, p, lin) =>
        n != t && Seen(s, n, g) && s.storages[o.a].alive && InLog(s, o.a, 0, lin, p) && StillOn(s, n, g, o.a, lin)
      case HMine(g, _, p, lin, their) =>
        && n != t && Seen(s, n, g) && s.storages[o.a].alive && InLog(s, o.a, 0, lin, p) && StillOn(s, n, g, o.a, lin)
        && (s.nodes[n].control == Gen(g) ==> s.nodes[n].offer == their)
      case HFill(g, _, p, lin, their, mine) =>
        && n != t && Seen(s, n, g) && s.storages[o.a].alive && InLog(s, o.a, 0, lin, p) && StillOn(s, n, g, o.a, lin)
        && (s.nodes[n].control == Gen(g) ==> s.nodes[n].offer == their) && mine == s.nodes[t].offer
      case HCas(g, _, p, lin, their, mine) =>
        && n != t && Seen(s, n, g) && s.storages[o.a].alive && InLog(s, o.a, 0, lin, p) && StillOn(s, n, g, o.a, lin)
        && (s.nodes[n].control == Gen(g) ==> s.nodes[n].offer == their) && mine == s.nodes[t].offer
        && mine < |s.envs| && s.envs[mine] == p
      case HStore(_) => n != t
      case HDrop(next, _, _) =>
        n != t && (next.Some? ==> Seen(s, n, next.value) && (s.storages[o.a].alive || s.nodes[n].addr != o.a))
  }

  ghost predicate ThreadOk(s: State, t: nat)
    requires t < |s.threads| && |s.nodes| == |s.threads|
  {
    ShapeOk(s, t) && LoadOk(s, t) && ControlOk(s, t) && HelpOk(s, t)
  }

  // ---- What a step of one thread leaves alone for the others ----

  /** A helper has replaced the generation in the control word of `u`. */
  ghost predicate Helped(s: State, s': State, u: nat)
    requires u < |s.nodes| && u < |s'.nodes| && u < |s'.threads|
  {
    && s.nodes[u].control.Gen? && s'.nodes[u] == s.nodes[u].(control := s'.nodes[u].control)
    && s'.threads[u].load.Loading? && GoodReplacement(s', u)
  }

  ghost predicate StorageGrows(s: State, s': State, t: nat, a: nat)
    requires a < |s.storages| && a < |s'.storages|
  {
    && s.storages[a].log <= s'.storages[a].log
    && (s.storages[a].alive && !s'.storages[a].alive ==>
      forall u :: 0 <= u < |s.threads| && u != t ==> !Uses(s.threads[u], a))
  }

  ghost predicate Frame(s: State, s': State, t: nat) {
    && |s'.threads| == |s.threads| && |s'.nodes| == |s.nodes| && |s'.envs| == |s.envs| && |s.nodes| == |s.threads|
    && (forall u :: 0 <= u < |s.threads| && u != t ==>
      s'.threads[u] == s.threads[u] && (s'.nodes[u] == s.nodes[u] || Helped(s, s', u)))
    && |s.storages| <= |s'.storages|
    && (forall a :: 0 <= a < |s.storages| ==> StorageGrows(s, s', t, a))
    && (forall u: nat, i: nat :: u < |s.threads| && u != t && SlotFree(s.book, SlotId(u, i)) ==>
      SlotFree(s'.book, SlotId(u, i)))
  }

  /** The envelope node `n` may write to next, counting those in flight. */
  ghost function Envelope(s: State, n: nat): nat
    requires n < |s.threads| && |s.nodes| == |s.threads|
  {
    var l, o := s.threads[n].load, s.threads[n].op;
    if s.nodes[n].control.Repl? then s.nodes[n].control.env
    else if l.Loading? && (l.pc.TakeEnv? || l.pc.StoreOffer?) then l.pc.env
    else if o.Pay? && o.pc.Helping? && o.pc.h.HStore? then o.pc.h.their
    else s.nodes[n].offer
  }

  ghost predicate EnvKept(s: State, s': State, u: nat)
    requires u < |s.threads| && |s.nodes| == |s.threads|
  {
    var e := Envelope(s, u);
    |s'.envs| == |s.envs| && (e < |s.envs| ==> s'.envs[e] == s.envs[e])
  }

  lemma OthersShape(s: State, s': State, t: nat, u: nat)
    requires Frame(s, s', t) && u < |s.threads| && u != t && ShapeOk(s, u)
    ensures ShapeOk(s', u)
  {
    var o := s.threads[u].op;
    if o.CasLoad? || o.CasTry? || o.CasDropPay? || o.CasDropDec? || o.CasMiss? {
      assert StorageGrows(s, s', t, o.a);
    }
  }

  lemma OthersLoad(s: State, s': State, t: nat, u: nat)
    requires Frame(s, s', t) && u < |s.threads| && u != t && LoadOk(s, u) && ControlOk(s, u) && EnvKept(s, s', u)
    ensures LoadOk(s', u)
  {
    var l := s.threads[u].load;
    if l.Loading? {
      assert StorageGrows(s, s', t, l.a);
      assert Uses(s.threads[u], l.a);
    }
  }

  lemma OthersControl(s: State, s': State, t: nat, u: nat)
    requires Frame(s, s', t) && u < |s.threads| && u != t && LoadOk(s, u) && ControlOk(s, u) && EnvKept(s, s', u)
    ensures ControlOk(s', u)
  {
    var l := s.threads[u].load;
    if l.Loading? {
      assert StorageGrows(s, s', t, l.a);
    }
  }

  /** What a step of `t` does to its own node, as its helpers see it. */
  ghost predicate OwnNodeStep(s: State, s': State, t: nat)
    requires t < |s.threads| && t < |s.nodes| && t < |s'.threads| && t < |s'.nodes|
  {
    var l, l', nd, nd' := s.threads[t].load, s'.threads[t].load, s.nodes[t], s'.nodes[t];
    && nd.gen <= nd'.gen
    && (nd'.control.Gen? ==>
      || (nd'.control == nd.control && nd'.offer == nd.offer && nd'.since == nd.since
          && l.Loading? && l'.Loading? && l'.a == l.a && l'.start == l.start)
      || (l.Loading? && l.pc.Open? && nd'.control == Gen(nd.gen)))
    && (l'.Loading? && l'.pc.Open? ==> nd.gen < nd'.gen || (l.Loading? && l.pc.Open?))
    && (nd'.addr == nd.addr || (nd'.addr < |s'.storages| && s'.storages[nd'.addr].alive))
  }

  lemma OthersHelp(s: State, s': State, t: nat, u: nat)
    requires Frame(s, s', t) && (t < |s.threads| ==> OwnNodeStep(s, s', t))
    requires u < |s.threads| && u != t && ShapeOk(s, u) && HelpOk(s, u) && ControlOk(s, u) && EnvKept(s, s', u)
    ensures HelpOk(s', u)
  {
    var o := s.threads[u].op;
    if o.Pay? && o.pc.Helping? {
      assert StorageGrows(s, s', t, o.a);
      assert Uses(s.threads[u], o.a);
    }
  }

  // ---- The steps of a load ----

  /** All a load changes outside of counts and slots, before it is done: its program point and its node. */
  ghost predicate LoadMoves(s: State, s': State, t: nat)
    requires t < |s.threads| && t < |s.nodes|
  {
    && s'.storages == s.storages && s'.envs == s.envs && s'.list == s.list && s'.events == s.events
    && |s'.threads| == |s.threads| && |s'.nodes| == |s.nodes|
    && (forall u :: 0 <= u < |s.threads| && u != t ==> s'.threads[u] == s.threads[u])
    && (forall n :: 0 <= n < |s.nodes| && n != t ==> s'.nodes[n] == s.nodes[n])
    && s'.threads[t].op == s.threads[t].op
    && s.threads[t].load.Loading? && s'.threads[t].load.Loading?
    && s'.threads[t].load == s.threads[t].load.(pc := s'.threads[t].load.pc)
  }

  predicate FastPc(pc: LoadPc) {
    pc.ReadPtr? || pc.ScanFast? || pc.PutFast? || pc.Recheck? || pc.GiveBack?
  }

  lemma FastStepMoves(s: State, t: nat)
    requires CanLoad(s, t) && FastPc(s.threads[t].load.pc)
    ensures LoadMoves(s, RunLoad(s, t), t)
  {
  }

  /** From the publication of a transaction to its end. */
  predicate FallbackPc(pc: LoadPc) {
    pc.Publish? || pc.Open? || TxPc(pc)
  }

  lemma FallbackStepMoves(s: State, t: nat)
    requires CanLoad(s, t) && FallbackPc(s.threads[t].load.pc)
    ensures LoadMoves(s, RunLoad(s, t), t)
  {
  }

  lemma LoadStepMoves(s: State, t: nat)
    requires CanLoad(s, t) && !s.threads[t].load.pc.Done?
    ensures LoadMoves(s, RunLoad(s, t), t)
  {
    if FastPc(s.threads[t].load.pc) { FastStepMoves(s, t); }
    else if FallbackPc(s.threads[t].load.pc) { FallbackStepMoves(s, t); }
  }

  lemma LoadStepSlots(s: State, t: nat)
    requires Sane(s) && CanLoad(s, t)
    ensures forall u: nat, i: nat :: u < |s.threads| && u != t && SlotFree(s.book, SlotId(u, i)) ==>
      SlotFree(RunLoad(s, t).book, SlotId(u, i))
  {
  }

  lemma LoadStepFrame(s: State, t: nat)
    requires Sane(s) && CanLoad(s, t)
    ensures Frame(s, RunLoad(s, t), t)
  {
    LoadStepSlots(s, t);
    if !s.threads[t].load.pc.Done? { LoadStepMoves(s, t); }
  }

  lemma LoadStepNode(s: State, t: nat)
    requires Sane(s) && CanLoad(s, t) && LoadOk(s, t) && ControlOk(s, t)
    ensures OwnNodeStep(s, RunLoad(s, t), t)
  {
  }

  lemma FastStepLoad(s: State, t: nat)
    requires Sane(s) && CanLoad(s, t) && LoadOk(s, t)
    requires FastPc(s.threads[t].load.pc)
    ensures LoadOk(RunLoad(s, t), t)
  {
  }

  lemma TxStepLoad(s: State, t: nat)
    requires Sane(s) && CanLoad(s, t) && LoadOk(s, t) && ControlOk(s, t) && FallbackPc(s.threads[t].load.pc)
    ensures LoadOk(RunLoad(s, t), t)
  {
    FallbackStepMoves(s, t);
  }

  lemma FallbackStepLoad(s: State, t: nat)
    requires Sane(s) && CanLoad(s, t) && LoadOk(s, t) && ControlOk(s, t)
    requires !FastPc(s.threads[t].load.pc) && !s.threads[t].load.pc.Done?
    ensures LoadOk(RunLoad(s, t), t)
  {
    if FallbackPc(s.threads[t].load.pc) { TxStepLoad(s, t); } else { OwnStepLoad(s, t); }
  }

  lemma OwnStepLoad(s: State, t: nat)
    requires Sane(s) && CanLoad(s, t) && LoadOk(s, t)
    requires var pc := s.threads[t].load.pc; !FastPc(pc) && !FallbackPc(pc) && !pc.Done?
    ensures LoadOk(RunLoad(s, t), t)
  {
    LoadStepMoves(s, t);
  }

  lemma LoadStepControl(s: State, t: nat)
    requires Sane(s) && CanLoad(s, t) && LoadOk(s, t) && ControlOk(s, t) && !s.threads[t].load.pc.Done?
    ensures ControlOk(RunLoad(s, t), t)
  {
    if FallbackPc(s.threads[t].load.pc) { TxStepControl(s, t); } else { LoadStepMoves(s, t); }
  }

  lemma TxStepControl(s: State, t: nat)
    requires Sane(s) && CanLoad(s, t) && LoadOk(s, t) && ControlOk(s, t) && FallbackPc(s.threads[t].load.pc)
    ensures ControlOk(RunLoad(s, t), t)
  {
    FallbackStepMoves(s, t);
  }

  lemma DeliverOk(s: State, t: nat)
    requires Sane(s) && CanLoad(s, t) && s.threads[t].load.pc.Done? && ThreadOk(s, t)
    ensures ThreadOk(DoDeliver(s, t), t)
  {
  }

  lemma LoadMovesOk(s: State, s': State, t: nat)
    requires Sane(s) && t < |s.threads| && ThreadOk(s, t) && LoadMoves(s, s', t)
    ensures ShapeOk(s', t) && HelpOk(s', t)
  {
  }

  lemma LoadStepOk(s: State, t: nat)
    requires Sane(s) && CanLoad(s, t) && ThreadOk(s, t)
    ensures |RunLoad(s, t).threads| == |s.threads| == |RunLoad(s, t).nodes| && ThreadOk(RunLoad(s, t), t)
  {
    var pc := s.threads[t].load.pc;
    if pc.Done? {
      DeliverOk(s, t);
    } else {
      LoadStepMoves(s, t);
      LoadMovesOk(s, RunLoad(s, t), t);
      LoadStepControl(s, t);
      if FastPc(pc) { FastStepLoad(s, t); }
      else { FallbackStepLoad(s, t); }
    }
  }

  // ---- The steps of a writer ----

  lemma HandOverFrame(s: State, t: nat)
    requires Sane(s) && CanHelp(s, t) && ThreadOk(s, t) && s.threads[t].load.NoLoad? && s.threads[t].op.pc.h.HCas?
    requires LoadOk(s, Who(s, t)) && ControlOk(s, Who(s, t))
    ensures Frame(s, RunHelp(s, t), t)
  {
  }

  lemma HelpStepFrame(s: State, t: nat)
    requires Sane(s) && CanHelp(s, t) && ThreadOk(s, t) && s.threads[t].load.NoLoad?
    requires LoadOk(s, Who(s, t)) && ControlOk(s, Who(s, t))
    ensures Frame(s, RunHelp(s, t), t)
  {
    if s.threads[t].op.pc.h.HCas? { HandOverFrame(s, t); }
  }

  lemma PayStepFrame(s: State, t: nat)
    requires Sane(s) && CanPay(s, t) && !s.threads[t].op.pc.Helping?
    ensures Frame(s, RunPay(s, t), t)
  {
  }

  lemma PayStepNode(s: State, t: nat)
    requires Sane(s) && CanPay(s, t) && ThreadOk(s, t) && s.threads[t].load.NoLoad?
    ensures OwnNodeStep(s, RunPay(s, t), t)
  {
  }

  lemma HelpReadsAddr(s: State, t: nat)
    requires Sane(s) && CanHelp(s, t) && ThreadOk(s, t) && s.threads[t].load.NoLoad?
    requires LoadOk(s, Who(s, t)) && ControlOk(s, Who(s, t)) && s.threads[t].op.pc.h.HAddr?
    ensures ThreadOk(DoHAddr(s, t), t)
  {
  }

  lemma HelpLooksOk(s: State, t: nat)
    requires Sane(s) && CanHelp(s, t) && ThreadOk(s, t) && s.threads[t].load.NoLoad?
    requires LoadOk(s, Who(s, t)) && ControlOk(s, Who(s, t))
    requires var h := s.threads[t].op.pc.h; h.HRead? || h.HAddr? || h.HRecheck?
    ensures ThreadOk(RunHelp(s, t), t)
  {
    if s.threads[t].op.pc.h.HAddr? { HelpReadsAddr(s, t); }
  }

  lemma HelpPreparesOk(s: State, t: nat)
    requires Sane(s) && CanHelp(s, t) && ThreadOk(s, t) && s.threads[t].load.NoLoad?
    requires var h := s.threads[t].op.pc.h; h.HTheir? || h.HMine? || h.HFill?
    ensures ThreadOk(RunHelp(s, t), t)
  {
  }

  lemma HelpCasOk(s: State, t: nat)
    requires Sane(s) && CanHelp(s, t) && ThreadOk(s, t) && s.threads[t].load.NoLoad?
    requires LoadOk(s, Who(s, t)) && ControlOk(s, Who(s, t)) && s.threads[t].op.pc.h.HCas?
    ensures ThreadOk(DoHCas(s, t), t)
  {
  }

  lemma HelpEndsOk(s: State, t: nat)
    requires Sane(s) && CanHelp(s, t) && ThreadOk(s, t) && s.threads[t].load.NoLoad?
    requires var h := s.threads[t].op.pc.h; h.HStore? || h.HDrop?
    ensures ThreadOk(RunHelp(s, t), t)
  {
  }

  lemma HelpStepOk(s: State, t: nat)
    requires Sane(s) && CanHelp(s, t) && ThreadOk(s, t) && s.threads[t].load.NoLoad?
    requires LoadOk(s, Who(s, t)) && ControlOk(s, Who(s, t))
    ensures |RunHelp(s, t).threads| == |s.threads| == |RunHelp(s, t).nodes| && ThreadOk(RunHelp(s, t), t)
  {
    var h := s.threads[t].op.pc.h;
    if h.HRead? || h.HAddr? || h.HRecheck? { HelpLooksOk(s, t); }
    else if h.HTheir? || h.HMine? || h.HFill? { HelpPreparesOk(s, t); }
    else if h.HCas? { HelpCasOk(s, t); }
    else { HelpEndsOk(s, t); }
  }

  lemma PayStepOk(s: State, t: nat)
    requires Sane(s) && CanPay(s, t) && ThreadOk(s, t) && s.threads[t].load.NoLoad? && !s.threads[t].op.pc.Helping?
    requires forall n :: n in s.list ==> n < |s.threads|
    ensures ThreadOk(RunPay(s, t), t)
  {
    var pc := s.threads[t].op.pc;
    if pc.PaySlot? || pc.PaySlotInc? {
      assert forall n :: n in pc.rest[1..] ==> n in pc.rest;
    }
  }

  lemma CasStepFrame(s: State, t: nat)
    requires Sane(s) && CanCas(s, t)
    ensures Frame(s, RunCas(s, t), t)
  {
  }

  lemma CasTryOk(s: State, t: nat)
    requires Sane(s) && CanCas(s, t) && ThreadOk(s, t) && s.threads[t].load.NoLoad? && s.threads[t].op.CasTry?
    ensures ThreadOk(DoCasTry(s, t), t) && OwnNodeStep(s, DoCasTry(s, t), t)
  {
  }

  lemma CasStepOk(s: State, t: nat)
    requires Sane(s) && CanCas(s, t) && ThreadOk(s, t) && s.threads[t].load.NoLoad?
    ensures ThreadOk(RunCas(s, t), t) && OwnNodeStep(s, RunCas(s, t), t)
  {
    if s.threads[t].op.CasTry? { CasTryOk(s, t); }
  }

  // ---- The steps of the program around ----

  lemma AttachOk(s: State, t: nat, weak: bool)
    requires Sane(s) && t < |s.threads| && ThreadOk(s, t) && Unattached(s.threads[t].op)
    ensures var s' := DoAttach(s, t, weak); Frame(s, s', t) && OwnNodeStep(s, s', t) && ThreadOk(s', t)
  {
  }

  lemma BeginFrame(s: State, step: Step)
    requires Sane(s) && Enabled(s, step) && (step.LoadFrom? || step.SwapIn? || step.CompareAndSwap? || step.TakeOut?)
    ensures Frame(s, Next(s, step), step.t)
  {
  }

  lemma BeginOk(s: State, step: Step)
    requires Sane(s) && Enabled(s, step) && (step.LoadFrom? || step.SwapIn? || step.CompareAndSwap? || step.TakeOut?)
    requires ThreadOk(s, step.t)
    ensures var s' := Next(s, step);
      |s'.threads| == |s.threads| == |s'.nodes| && ThreadOk(s', step.t) && OwnNodeStep(s, s', step.t)
  {
  }

  lemma UserFrame(s: State, step: Step)
    requires Sane(s) && Enabled(s, step)
    requires step.NewStorage? || step.NewObject? || step.Clone? || step.ReturnDebt? || step.Release?
    ensures Frame(s, Next(s, step), |s.threads|)
  {
  }

  ghost predicate ThreadsOk(s: State) {
    |s.nodes| == |s.threads| && forall u :: 0 <= u < |s.threads| ==> ThreadOk(s, u)
  }

  /** All threads are fine after a step that is fine for its own thread. */
  lemma AllThreadsOk(s: State, s': State, t: nat)
    requires ThreadsOk(s) && Frame(s, s', t)
    requires t < |s.threads| ==> OwnNodeStep(s, s', t) && ThreadOk(s', t)
    requires forall u :: 0 <= u < |s.threads| && u != t ==> EnvKept(s, s', u)
    ensures ThreadsOk(s')
  {
    forall u | 0 <= u < |s'.threads| ensures ThreadOk(s', u) {
      if u != t {
        assert ThreadOk(s, u);
        OthersShape(s, s', t, u);
        OthersLoad(s, s', t, u);
        OthersControl(s, s', t, u);
        OthersHelp(s, s', t, u);
      }
    }
  }
}
