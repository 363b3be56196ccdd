/**
 Why an unpaid debt keeps its object alive. A confirmed debt is backed by a storage that still has
 the pointer, or by a writer that took it out and has yet to come to the slot. An open transaction
 with a candidate is backed by its storage, or by a writer that has yet to leave `help` on its node.
 */
module Backing {
  import opened Ledger
  import opened Machine
  import opened Protocol

  /** The first program point of `pay_all`. */
  predicate Starts(pc: PayPc) {
    pc.PayInc? || pc.PayEnter?
  }

  /** The writer has yet to leave `help` on node `n`. */
  ghost predicate Unhelped(o: Op, n: nat) {
    && o.Pay?
    && match o.pc
       case PayEnter => true
       case PayLink(_) => true
       case PayInc => true
       case PayHead(_) => true
       case Helping(_, rest, h) =>
         rest != [] && (n in rest[1..] || (n == rest[0] && !h.HStore? && !(h.HDrop? && h.next.None?)))
       case PaySlot(_, rest, _) => rest != [] && n in rest[1..]
       case PaySlotInc(rest, _) => rest != [] && n in rest[1..]
       case PayEnd(_) => false
       case PayRet => false
  }

  /** The writer has yet to come to slot `x`. */
  ghost predicate Watches(o: Op, x: SlotId) {
    && o.Pay?
    && match o.pc
       case PayEnter => true
       case PayLink(_) => true
       case PayInc => true
       case PayHead(_) => true
       case Helping(_, rest, _) => x.node in rest
       case PaySlot(_, rest, i) => rest != [] && (x.node in rest[1..] || (x.node == rest[0] && i <= x.idx))
       case PaySlotInc(rest, i) => rest != [] && (x.node in rest[1..] || (x.node == rest[0] && i < x.idx))
       case PayEnd(_) => false
       case PayRet => false
  }

  ghost predicate Stores(s: State, a: nat, p: Ptr) {
    a < |s.storages| && s.storages[a].alive && s.storages[a].ptr == p
  }

  ghost predicate WatchedBy(s: State, w: nat, x: SlotId, p: Ptr) {
    w < |s.threads| && Watches(s.threads[w].op, x) && s.threads[w].op.gone == p
  }

  ghost predicate Backed(s: State, x: SlotId, p: Ptr) {
    (exists a: nat :: Stores(s, a, p)) || (exists w: nat :: WatchedBy(s, w, x, p))
  }

  ghost predicate Confirmed(b: Book, c: nat) {
    c < |b.claims| && b.claims[c].kind.Debt? && b.claims[c].kind.confirmed
  }

  ghost predicate DebtsBacked(s: State) {
    forall c: nat :: Confirmed(s.book, c) && Owes(s.book, c) ==>
      Backed(s, s.book.claims[c].kind.at, s.book.claims[c].ptr)
  }

  ghost predicate OpenTx(s: State, t: nat) {
    t < |s.threads| && t < |s.nodes| && s.threads[t].load.Loading? && s.nodes[t].control.Gen?
  }

  /** Node `t` has an open transaction that has read its candidate. */
  ghost predicate OpenCandidate(s: State, t: nat) {
    && t < |s.threads| && t < |s.nodes| && s.threads[t].load.Loading?
    && (s.threads[t].load.pc.PutCand? || s.threads[t].load.pc.Close?) && s.nodes[t].control == Gen(s.nodes[t].gen)
  }

  /** The transaction of node `t` is still open, with the same candidate. */
  ghost predicate SameCandidate(s: State, s': State, t: nat)
    requires OpenCandidate(s', t)
  {
    && OpenCandidate(s, t) && s'.threads[t].load.a == s.threads[t].load.a
    && s'.threads[t].load.pc.ptr == s.threads[t].load.pc.ptr
  }

  ghost predicate WillHelp(s: State, w: nat, n: nat, a: nat, p: Ptr) {
    w < |s.threads| && Unhelped(s.threads[w].op, n) && s.threads[w].op.a == a && s.threads[w].op.gone == p
  }

  ghost predicate CandidateBacked(s: State, n: nat, a: nat, p: Ptr) {
    Stores(s, a, p) || exists w: nat :: WillHelp(s, w, n, a, p)
  }

  ghost predicate CandidatesBacked(s: State) {
    forall t: nat :: OpenCandidate(s, t) ==> CandidateBacked(s, t, s.threads[t].load.a, s.threads[t].load.pc.ptr)
  }

  /** Who has debts is in the list, and the list has only nodes. */
  ghost predicate ListOk(s: State) {
    && (forall n :: n in s.list ==> n < |s.threads|)
    && (forall i, j :: 0 <= i < j < |s.list| ==> s.list[i] != s.list[j])
    && (forall t: nat :: t < |s.threads| ==> (t in s.list <==> !Unattached(s.threads[t].op)))
    && SlotsListed(s.book, s.list)
  }

  ghost predicate SlotsListed(b: Book, list: seq<nat>) {
    forall x :: x in b.slots ==> x.idx <= HELPING && (b.slots[x].val.Some? ==> x.node in list)
  }

  // ---- What a step of `t` has to respect ----

  /** Every storage keeps its pointer, or thread `t` has just taken it out and starts paying. */
  ghost predicate StoragesRespected(s: State, s': State, t: nat) {
    && |s.storages| <= |s'.storages|
    && forall a: nat :: a < |s.storages| && s.storages[a].alive ==>
      || (s'.storages[a].alive && s'.storages[a].ptr == s.storages[a].ptr)
      || (t < |s'.threads| && s'.threads[t].op.Pay? && s'.threads[t].op.a == a
          && s'.threads[t].op.gone == s.storages[a].ptr && Starts(s'.threads[t].op.pc))
  }

  /** Thread `t` stops watching a slot only when the slot no longer has the pointer. */
  ghost predicate WatchKept(s: State, s': State, t: nat)
    requires t < |s.threads| && t < |s'.threads|
  {
    var o, o' := s.threads[t].op, s'.threads[t].op;
    forall x :: x in s'.book.slots && Watches(o, x) && s'.book.slots[x].val == Some(o.gone) ==>
      o'.Pay? && o'.gone == o.gone && Watches(o', x)
  }

  /** Thread `t` leaves `help` on a node only when no transaction on its storage is open there. */
  ghost predicate HelpKept(s: State, s': State, t: nat)
    requires t < |s.threads| && t < |s'.threads|
  {
    var o, o' := s.threads[t].op, s'.threads[t].op;
    forall n: nat :: Unhelped(o, n) && OpenTx(s', n) && s'.threads[n].load.a == o.a ==>
      o'.Pay? && o'.gone == o.gone && o'.a == o.a && Unhelped(o', n)
  }

  ghost predicate SameThreads(s: State, s': State, t: nat) {
    |s'.threads| == |s.threads| && forall u :: 0 <= u < |s.threads| && u != t ==> s'.threads[u] == s.threads[u]
  }

  lemma BackedStep(s: State, s': State, t: nat, x: SlotId, p: Ptr)
    requires SameThreads(s, s', t) && StoragesRespected(s, s', t) && (t < |s.threads| ==> WatchKept(s, s', t))
    requires Backed(s, x, p) && x in s'.book.slots && s'.book.slots[x].val == Some(p)
    ensures Backed(s', x, p)
  {
    if a: nat :| Stores(s, a, p) {
      assert Stores(s', a, p) || WatchedBy(s', t, x, p);
    } else {
      var w: nat :| WatchedBy(s, w, x, p);
      assert WatchedBy(s', w, x, p);
    }
  }

  lemma CandidateStep(s: State, s': State, t: nat, n: nat, p: Ptr)
    requires SameThreads(s, s', t) && StoragesRespected(s, s', t) && (t < |s.threads| ==> HelpKept(s, s', t))
    requires OpenCandidate(s', n) && CandidateBacked(s, n, s'.threads[n].load.a, p)
    ensures CandidateBacked(s', n, s'.threads[n].load.a, p)
  {
    var a := s'.threads[n].load.a;
    if Stores(s, a, p) {
      assert Stores(s', a, p) || WillHelp(s', t, n, a, p);
    } else {
      var w: nat :| WillHelp(s, w, n, a, p);
      assert WillHelp(s', w, n, a, p);
    }
  }

  /** No claim but `k` becomes a confirmed unpaid debt. */
  ghost predicate NoNewDebts(b: Book, b': Book, k: nat) {
    forall c: nat :: c != k && Confirmed(b', c) && Owes(b', c) ==>
      Confirmed(b, c) && Owes(b, c) && b'.claims[c].ptr == b.claims[c].ptr && b'.claims[c].kind == b.claims[c].kind
  }

  lemma DebtsStep(s: State, s': State, t: nat, k: nat)
    requires DebtsBacked(s) && NoNewDebts(s.book, s'.book, k)
    requires SameThreads(s, s', t) && StoragesRespected(s, s', t) && (t < |s.threads| ==> WatchKept(s, s', t))
    requires Confirmed(s'.book, k) && Owes(s'.book, k) ==> Backed(s', s'.book.claims[k].kind.at, s'.book.claims[k].ptr)
    ensures DebtsBacked(s')
  {
    forall c: nat | Confirmed(s'.book, c) && Owes(s'.book, c)
      ensures Backed(s', s'.book.claims[c].kind.at, s'.book.claims[c].ptr)
    {
      if c != k {
        BackedStep(s, s', t, s.book.claims[c].kind.at, s.book.claims[c].ptr);
      }
    }
  }

  lemma CandidatesStep(s: State, s': State, t: nat)
    requires CandidatesBacked(s) && |s.nodes| == |s.threads| && Frame(s, s', t)
    requires StoragesRespected(s, s', t) && (t < |s.threads| ==> HelpKept(s, s', t))
    requires OpenCandidate(s', t) ==>
      || SameCandidate(s, s', t)
      || Stores(s', s'.threads[t].load.a, s'.threads[t].load.pc.ptr)
    ensures CandidatesBacked(s')
  {
    forall n: nat | OpenCandidate(s', n)
      ensures CandidateBacked(s', n, s'.threads[n].load.a, s'.threads[n].load.pc.ptr)
    {
      if n != t || OpenCandidate(s, n) {
        assert n != t ==> s'.threads[n] == s.threads[n] && s'.nodes[n] == s.nodes[n];
        if n != t || SameCandidate(s, s', n) {
          CandidateStep(s, s', t, n, s'.threads[n].load.pc.ptr);
        }
      }
    }
  }

  // ---- Counts and slots create no confirmed debt ----

  lemma PayOwnDebts(b: Book, c: nat, k: nat)
    requires c < |b.claims| && b.claims[c].kind.Debt?
    ensures NoNewDebts(b, PayOwn(b, c), k)
  {
  }

  lemma PayOwnMoveDebts(b: Book, c: nat, d: nat, h: Holder, k: nat)
    requires c < |b.claims| && d < |b.claims| && b.claims[c].kind.Debt?
    ensures NoNewDebts(b, Move(PayOwn(b, c), d, h), k)
  {
  }

  lemma DecMoveDebts(b: Book, c: nat, d: nat, h: Holder, k: nat)
    requires c < |b.claims| && d < |b.claims| && b.claims[c].ptr < |b.cnt|
    ensures NoNewDebts(b, Dec(b, c), k) && NoNewDebts(b, Move(b, d, h), k) && NoNewDebts(b, Move(Dec(b, c), d, h), k)
  {
  }

  lemma GrowDebts(b: Book, p: Ptr, x: SlotId, h: Holder, k: nat)
    ensures p < |b.cnt| ==> NoNewDebts(b, Inc(b, p, h), k)
    ensures NoNewDebts(b, Place(b, x, p, h), k) && NoNewDebts(b, Alloc(b, h), k)
  {
  }

  lemma PayForDebts(b: Book, x: SlotId, c: nat, k: nat)
    requires c < |b.claims|
    ensures NoNewDebts(b, PayFor(b, x, c), k)
  {
  }

  lemma ConfirmDebts(b: Book, c: nat)
    requires c < |b.claims| && b.claims[c].kind.Debt?
    ensures NoNewDebts(b, Confirm(b, c), c)
  {
  }

  /** The claim a load step may confirm, if any. */
  ghost function Confirming(s: State, t: nat): nat
    requires InLoad(s, t)
  {
    match s.threads[t].load.pc
    case Recheck(_, _, c) => c
    case Close(_, _, c) => c
    case _ => |s.book.claims| + 1
  }

  lemma FastStepDebts(s: State, t: nat)
    requires CanLoad(s, t) && FastPc(s.threads[t].load.pc)
    ensures NoNewDebts(s.book, RunLoad(s, t).book, Confirming(s, t))
  {
    var b, k := s.book, Confirming(s, t);
    match s.threads[t].load.pc
    case PutFast(p, _, i) => GrowDebts(b, p, SlotId(t, i), Thread(t, LoadClaim), k);
    case Recheck(_, _, c) => ConfirmDebts(b, c);
    case GiveBack(_, _, c) => PayOwnDebts(b, c, k);
    case _ =>
  }

  lemma LoadStepDebts(s: State, t: nat)
    requires CanLoad(s, t)
    ensures NoNewDebts(s.book, RunLoad(s, t).book, Confirming(s, t))
  {
    if FastPc(s.threads[t].load.pc) { FastStepDebts(s, t); } else { SlowStepDebts(s, t); }
  }

  lemma SlowStepDebts(s: State, t: nat)
    requires CanLoad(s, t) && !FastPc(s.threads[t].load.pc)
    ensures NoNewDebts(s.book, RunLoad(s, t).book, Confirming(s, t))
  {
    var b, k := s.book, Confirming(s, t);
    match s.threads[t].load.pc
    case PutCand(p, _) => GrowDebts(b, p, SlotId(t, HELPING), Thread(t, LoadClaim), k);
    case Close(_, _, c) => ConfirmDebts(b, c);
    case OwnInc(p, _, _) => GrowDebts(b, p, SlotId(t, HELPING), Thread(t, LoadOwned), k);
    case OwnPay(_, _, c, d) => PayOwnDebts(b, c, k); PayOwnMoveDebts(b, c, d, Thread(t, LoadClaim), k);
    case OwnDec(_, _, c, d) => DecMoveDebts(b, c, d, Thread(t, LoadClaim), k);
    case DropCand(_, c, r, _, _) => PayOwnDebts(b, c, k); PayOwnMoveDebts(b, c, r, Thread(t, LoadClaim), k);
    case DecCand(_, c, r, _, _) => DecMoveDebts(b, c, r, Thread(t, LoadClaim), k);
    case _ =>
  }

  // ---- The steps of a load ----

  lemma LoadStepRespects(s: State, t: nat)
    requires Sane(s) && CanLoad(s, t) && ShapeOk(s, t)
    ensures var s' := RunLoad(s, t);
      SameThreads(s, s', t) && StoragesRespected(s, s', t) && WatchKept(s, s', t) && HelpKept(s, s', t)
  {
    if !s.threads[t].load.pc.Done? { LoadStepMoves(s, t); }
  }

  lemma RecheckBacked(s: State, t: nat)
    requires Sane(s) && CanLoad(s, t) && LoadOk(s, t) && s.threads[t].load.pc.Recheck?
    requires s.book.claims[s.threads[t].load.pc.c].ptr == s.threads[t].load.pc.ptr
    requires !s.book.claims[s.threads[t].load.pc.c].kind.confirmed
    ensures var s', k := DoRecheck(s, t), s.threads[t].load.pc.c;
      Confirmed(s'.book, k) ==> Backed(s', s'.book.claims[k].kind.at, s'.book.claims[k].ptr)
  {
    var l := s.threads[t].load;
    if s.storages[l.a].ptr == l.pc.ptr { assert Stores(DoRecheck(s, t), l.a, l.pc.ptr); }
  }

  /** The confirmed candidate of a fallback: nobody has taken it out and passed this node's `help`. */
  lemma CloseBacked(s: State, t: nat)
    requires Sane(s) && CanLoad(s, t) && LoadOk(s, t) && s.threads[t].load.pc.Close? && CandidatesBacked(s)
    requires var k := s.threads[t].load.pc.c;
      s.book.claims[k].ptr == s.threads[t].load.pc.ptr && s.book.claims[k].kind == Debt(SlotId(t, HELPING), false)
    requires s.nodes[t].control.Repl? ==> s.nodes[t].control.claim < |s.book.claims|
    ensures var s', k := DoClose(s, t), s.threads[t].load.pc.c;
      Confirmed(s'.book, k) ==> Backed(s', s'.book.claims[k].kind.at, s'.book.claims[k].ptr)
  {
    var l, s' := s.threads[t].load, DoClose(s, t);
    if s.nodes[t].control == Gen(s.nodes[t].gen) {
      assert OpenCandidate(s, t);
      if Stores(s, l.a, l.pc.ptr) {
        assert Stores(s', l.a, l.pc.ptr);
      } else {
        var w: nat :| WillHelp(s, w, t, l.a, l.pc.ptr);
        assert WatchedBy(s', w, SlotId(t, HELPING), l.pc.ptr);
      }
    }
  }

  lemma LoadStepCandidate(s: State, t: nat)
    requires Sane(s) && CanLoad(s, t) && LoadOk(s, t)
    ensures var s' := RunLoad(s, t);
      OpenCandidate(s', t) ==>
        || SameCandidate(s, s', t)
        || Stores(s', s'.threads[t].load.a, s'.threads[t].load.pc.ptr)
  {
  }

  lemma FastStepListed(s: State, t: nat)
    requires CanLoad(s, t) && SlotsListed(s.book, s.list) && t in s.list && FastPc(s.threads[t].load.pc)
    requires s.threads[t].load.pc.PutFast? ==> s.threads[t].load.pc.i < HELPING
    ensures SlotsListed(RunLoad(s, t).book, s.list)
  {
  }

  lemma LoadStepListed(s: State, t: nat)
    requires CanLoad(s, t) && SlotsListed(s.book, s.list) && t in s.list
    requires s.threads[t].load.pc.PutFast? ==> s.threads[t].load.pc.i < HELPING
    ensures SlotsListed(RunLoad(s, t).book, s.list)
  {
    if FastPc(s.threads[t].load.pc) { FastStepListed(s, t); }
  }

  lemma LoadStepList(s: State, t: nat)
    requires Sane(s) && ListOk(s) && CanLoad(s, t) && ShapeOk(s, t) && LoadOk(s, t)
    ensures ListOk(RunLoad(s, t))
  {
    LoadStepListed(s, t);
    if !s.threads[t].load.pc.Done? { LoadStepMoves(s, t); }
  }

  // ---- The steps of a writer ----

  lemma HelpStepDebts(s: State, t: nat, k: nat)
    requires CanHelp(s, t)
    ensures NoNewDebts(s.book, RunHelp(s, t).book, k)
  {
    var b, h := s.book, s.threads[t].op.pc.h;
    if h.HDrop? { DecMoveDebts(b, h.r, h.r, User, k); }
    if h.HCas? && b.claims[h.r].ptr < |b.cnt| { DecMoveDebts(b, h.r, h.r, Word(Who(s, t)), k); }
  }

  lemma InTail(rest: seq<nat>, n: nat)
    requires rest != []
    ensures n in rest <==> n == rest[0] || n in rest[1..]
  {
  }

  lemma HelpStepWatches(s: State, t: nat)
    requires Sane(s) && CanHelp(s, t)
    ensures var s' := RunHelp(s, t); SameThreads(s, s', t) && StoragesRespected(s, s', t) && WatchKept(s, s', t)
  {
    forall x: SlotId ensures Watches(s.threads[t].op, x) ==> Watches(RunHelp(s, t).threads[t].op, x) {
      InTail(s.threads[t].op.pc.rest, x.node);
    }
  }

  /** Leaving `help`: the transaction is gone, was helped, or is on another storage. */
  lemma HelpStepKeeps(s: State, t: nat)
    requires Sane(s) && CanHelp(s, t) && ThreadOk(s, t) && s.threads[t].load.NoLoad?
    requires ControlOk(s, Who(s, t))
    ensures |RunHelp(s, t).threads| == |s.threads| && HelpKept(s, RunHelp(s, t), t)
  {
    var s', o, m := RunHelp(s, t), s.threads[t].op, Who(s, t);
    forall n: nat | Unhelped(o, n) && OpenTx(s', n) && s'.threads[n].load.a == o.a
      ensures var o' := s'.threads[t].op; o'.Pay? && o'.gone == o.gone && o'.a == o.a && Unhelped(o', n)
    {
      if n !in o.pc.rest[1..] {
        assert n == m;
      }
    }
  }

  lemma PayStepDebts(s: State, t: nat, k: nat)
    requires CanPay(s, t) && !s.threads[t].op.pc.Helping?
    ensures NoNewDebts(s.book, RunPay(s, t).book, k)
  {
    var b, o := s.book, s.threads[t].op;
    match o.pc
    case PayInc => GrowDebts(b, o.gone, SlotId(0, 0), Thread(t, Prepaid), k);
    case PaySlot(pre, rest, i) => PayForDebts(b, SlotId(rest[0], i), pre, k);
    case PaySlotInc(_, _) => GrowDebts(b, o.gone, SlotId(0, 0), Thread(t, Prepaid), k);
    case PayEnd(pre) => DecMoveDebts(b, pre, pre, User, k);
    case PayRet => DecMoveDebts(b, o.val, if o.after.RetGuard? then o.after.guard else o.val, User, k);
    case _ =>
  }

  /** The scan: a slot is passed only when it does not have the pointer. */
  lemma PayStepWatches(s: State, t: nat)
    requires Sane(s) && CanPay(s, t) && ThreadOk(s, t) && !s.threads[t].op.pc.Helping? && ListOk(s)
    requires s.threads[t].op.pc.PaySlot? ==> s.book.claims[s.threads[t].op.pc.pre].ptr == s.threads[t].op.gone
    ensures var s' := RunPay(s, t); SameThreads(s, s', t) && StoragesRespected(s, s', t) && WatchKept(s, s', t)
  {
    var s', o := RunPay(s, t), s.threads[t].op;
    if o.pc.PaySlot? || o.pc.PaySlotInc? { ScanWatches(s, t); } else {
      forall x | x in s'.book.slots && Watches(o, x) && s'.book.slots[x].val == Some(o.gone)
        ensures var o' := s'.threads[t].op; o'.Pay? && o'.gone == o.gone && Watches(o', x)
      {
        if o.pc.PayHead? && s.list != [] { InTail(s.list, x.node); }
      }
    }
  }

  lemma ScanWatches(s: State, t: nat)
    requires Sane(s) && CanPay(s, t) && ThreadOk(s, t)
    requires (s.threads[t].op.pc.PaySlot? || s.threads[t].op.pc.PaySlotInc?)
    requires s.threads[t].op.pc.PaySlot? ==> s.book.claims[s.threads[t].op.pc.pre].ptr == s.threads[t].op.gone
    requires ListOk(s)
    ensures var s' := RunPay(s, t); SameThreads(s, s', t) && StoragesRespected(s, s', t) && WatchKept(s, s', t)
  {
    var s', o := RunPay(s, t), s.threads[t].op;
    forall x | x in s'.book.slots && Watches(o, x) && s'.book.slots[x].val == Some(o.gone)
      ensures var o' := s'.threads[t].op; o'.Pay? && o'.gone == o.gone && Watches(o', x)
    {
      if o.pc.rest[1..] != [] { InTail(o.pc.rest[1..], x.node); }
    }
  }

  lemma PayStepKeeps(s: State, t: nat)
    requires Sane(s) && CanPay(s, t) && ThreadsOk(s) && !s.threads[t].op.pc.Helping? && ListOk(s)
    ensures |RunPay(s, t).threads| == |s.threads| && HelpKept(s, RunPay(s, t), t)
  {
    var s', o := RunPay(s, t), s.threads[t].op;
    assert ThreadOk(s, t);
    forall n: nat | Unhelped(o, n) && OpenTx(s', n) && s'.threads[n].load.a == o.a
      ensures var o' := s'.threads[t].op; o'.Pay? && o'.gone == o.gone && o'.a == o.a && Unhelped(o', n)
    {
      assert ThreadOk(s, n);
      if o.pc.PaySlot? || o.pc.PaySlotInc? {
        if o.pc.rest[1..] != [] { InTail(o.pc.rest[1..], n); }
      } else if o.pc.PayHead? {
        if s.list != [] { InTail(s.list, n); }
      }
    }
  }

  lemma HelpStepList(s: State, t: nat)
    requires Sane(s) && ListOk(s) && CanHelp(s, t)
    ensures ListOk(RunHelp(s, t))
  {
    assert RunHelp(s, t).book.slots == s.book.slots && RunHelp(s, t).list == s.list;
  }

  lemma PayStepList(s: State, t: nat)
    requires Sane(s) && ListOk(s) && CanPay(s, t)
    ensures ListOk(RunPay(s, t))
  {
    if s.threads[t].op.pc.Helping? { HelpStepList(s, t); }
  }

  // ---- Taking a pointer out of a storage, and the rest ----

  lemma CasStepDebts(s: State, t: nat, k: nat)
    requires CanCas(s, t)
    ensures NoNewDebts(s.book, RunCas(s, t).book, k)
  {
    var b, o := s.book, s.threads[t].op;
    match o
    case CasDropPay(_, _, _, _, guard) => PayOwnDebts(b, guard, k);
    case CasDropDec(_, _, _, _, guard) => DecMoveDebts(b, guard, guard, User, k);
    case CasMiss(_, _, neu, _, guard, _, _) => DecMoveDebts(b, neu, guard, User, k);
    case _ =>
  }

  lemma CasStepRespects(s: State, t: nat)
    requires Sane(s) && CanCas(s, t)
    ensures var s' := RunCas(s, t);
      SameThreads(s, s', t) && StoragesRespected(s, s', t) && WatchKept(s, s', t) && HelpKept(s, s', t)
  {
  }

  lemma CasStepList(s: State, t: nat)
    requires Sane(s) && ListOk(s) && CanCas(s, t)
    ensures ListOk(RunCas(s, t))
  {
  }

  lemma BeginRespects(s: State, step: Step, k: nat)
    requires Sane(s) && Enabled(s, step) && (step.LoadFrom? || step.SwapIn? || step.CompareAndSwap? || step.TakeOut?)
    ensures var s', t := Next(s, step), step.t;
      && SameThreads(s, s', t) && StoragesRespected(s, s', t) && WatchKept(s, s', t) && HelpKept(s, s', t)
      && NoNewDebts(s.book, s'.book, k) && !OpenCandidate(s', t)
  {
  }

  lemma BeginList(s: State, step: Step)
    requires Sane(s) && Enabled(s, step) && (step.LoadFrom? || step.SwapIn? || step.CompareAndSwap? || step.TakeOut?)
    requires ListOk(s)
    ensures ListOk(Next(s, step))
  {
  }

  lemma AttachRespects(s: State, t: nat, weak: bool)
    requires Sane(s) && t < |s.threads| && Unattached(s.threads[t].op) && ListOk(s) && ShapeOk(s, t)
    ensures var s' := DoAttach(s, t, weak);
      && SameThreads(s, s', t) && StoragesRespected(s, s', t) && WatchKept(s, s', t) && HelpKept(s, s', t)
      && ListOk(s') && !OpenCandidate(s', t)
  {
  }

  lemma UserRespects(s: State, step: Step, k: nat)
    requires Sane(s) && Enabled(s, step)
    requires step.NewStorage? || step.NewObject? || step.Clone? || step.ReturnDebt? || step.Release?
    ensures var s' := Next(s, step);
      SameThreads(s, s', |s.threads|) && StoragesRespected(s, s', |s.threads|) && NoNewDebts(s.book, s'.book, k)
  {
    var b := s.book;
    match step
    case NewObject => GrowDebts(b, 0, SlotId(0, 0), User, k);
    case Clone(c) => GrowDebts(b, b.claims[c].ptr, SlotId(0, 0), User, k);
    case ReturnDebt(c) => PayOwnDebts(b, c, k);
    case Release(c) => DecMoveDebts(b, c, c, User, k);
    case _ =>
  }

  lemma UserList(s: State, step: Step)
    requires Sane(s) && Enabled(s, step) && ListOk(s)
    requires step.NewStorage? || step.NewObject? || step.Clone? || step.ReturnDebt? || step.Release?
    ensures ListOk(Next(s, step))
  {
  }
}
