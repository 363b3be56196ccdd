/**
 Who holds which claim. Each program point of a thread expects certain claims; each live claim is
 expected by its holder. Together: no claim is shared and none is lost.
 */
module Ownership {
  import opened Ledger
  import opened Machine

  /** The kind of claim a holder relies on. */
  datatype Want =
    | WOwned
    | WFast(t: nat)       // an unconfirmed debt in a fast slot of node `t`
    | WHelp(t: nat)       // an unconfirmed debt in the helping slot of node `t`
    | WConfirmed(t: nat)  // a confirmed debt in any slot of node `t`
    | WDebt               // a confirmed debt in a fast slot
    | WGuard              // what a guard holds: a full count, or a confirmed debt in a fast slot

  datatype Expect = Expect(c: nat, ptr: Ptr, want: Want)

  ghost predicate Fits(k: Kind, w: Want) {
    match w
    case WOwned => k.Owned?
    case WFast(t) => k.Debt? && !k.confirmed && k.at.node == t && k.at.idx < HELPING
    case WHelp(t) => k == Debt(SlotId(t, HELPING), false)
    case WConfirmed(t) => k.Debt? && k.confirmed && k.at.node == t
    case WDebt => k.Debt? && k.confirmed && k.at.idx < HELPING
    case WGuard => k.Owned? || (k.Debt? && k.confirmed && k.at.idx < HELPING)
  }

  ghost function LoadClaimOf(l: Load, t: nat): Option<Expect> {
    if l.NoLoad? then None else
    match l.pc
    case Recheck(p, _, c) => Some(Expect(c, p, WFast(t)))
    case GiveBack(p, _, c) => Some(Expect(c, p, WFast(t)))
    case Close(p, _, c) => Some(Expect(c, p, WHelp(t)))
    case OwnInc(p, _, c) => Some(Expect(c, p, WConfirmed(t)))
    case OwnPay(p, _, c, _) => Some(Expect(c, p, WConfirmed(t)))
    case OwnDec(p, _, c, _) => Some(Expect(c, p, WOwned))
    case TakeEnv(p, c, _, _, _, _) => Some(Expect(c, p, WHelp(t)))
    case StoreOffer(p, c, _, _, _, _) => Some(Expect(c, p, WHelp(t)))
    case DropCand(p, c, _, _, _) => Some(Expect(c, p, WHelp(t)))
    case DecCand(p, c, _, _, _) => Some(Expect(c, p, WOwned))
    case Done(p, _, c) => Some(Expect(c, p, if l.own then WOwned else WGuard))
    case _ => None
  }

  ghost function LoadOwnedOf(l: Load): Option<Expect> {
    if l.NoLoad? then None else
    match l.pc
    case OwnPay(p, _, _, d) => Some(Expect(d, p, WOwned))
    case OwnDec(p, _, _, d) => Some(Expect(d, p, WOwned))
    case _ => None
  }

  ghost function LoadReplOf(l: Load): Option<Expect> {
    if l.NoLoad? then None else
    match l.pc
    case TakeEnv(_, _, _, r, p, _) => Some(Expect(r, p, WOwned))
    case StoreOffer(_, _, _, r, p, _) => Some(Expect(r, p, WOwned))
    case DropCand(_, _, r, p, _) => Some(Expect(r, p, WOwned))
    case DecCand(_, _, r, p, _) => Some(Expect(r, p, WOwned))
    case _ => None
  }

  ghost function PrepaidOf(o: Op): Option<Expect> {
    if !o.Pay? then None else
    match o.pc
    case PayHead(pre) => Some(Expect(pre, o.gone, WOwned))
    case Helping(pre, _, _) => Some(Expect(pre, o.gone, WOwned))
    case PaySlot(pre, _, _) => Some(Expect(pre, o.gone, WOwned))
    case PayEnd(pre) => Some(Expect(pre, o.gone, WOwned))
    case _ => None
  }

  ghost function GuardOf(o: Op): Option<Expect> {
    match o
    case Pay(_, gone, _, _, RetGuard(guard, _, _), _) => Some(Expect(guard, gone, WGuard))
    case CasTry(_, cur, _, _, guard, _) => Some(Expect(guard, cur, WGuard))
    case CasDropPay(_, cur, _, _, guard) => Some(Expect(guard, cur, WDebt))
    case CasDropDec(_, cur, _, _, guard) => Some(Expect(guard, cur, WOwned))
    case CasMiss(_, _, _, _, guard, gptr, _) => Some(Expect(guard, gptr, WGuard))
    case _ => None
  }

  ghost function NewOf(o: Op): Option<Expect> {
    match o
    case CasLoad(_, _, neu, nptr) => Some(Expect(neu, nptr, WOwned))
    case CasTry(_, _, neu, nptr, _, _) => Some(Expect(neu, nptr, WOwned))
    case CasDropPay(_, _, neu, nptr, _) => Some(Expect(neu, nptr, WOwned))
    case CasDropDec(_, _, neu, nptr, _) => Some(Expect(neu, nptr, WOwned))
    case CasMiss(_, _, neu, nptr, _, _, _) => Some(Expect(neu, nptr, WOwned))
    case _ => None
  }

  ghost function ReplacementOf(o: Op): Option<Expect> {
    if !o.Pay? || !o.pc.Helping? then None else
    match o.pc.h
    case HTheir(_, r, p, _) => Some(Expect(r, p, WOwned))
    case HMine(_, r, p, _, _) => Some(Expect(r, p, WOwned))
    case HFill(_, r, p, _, _, _) => Some(Expect(r, p, WOwned))
    case HCas(_, r, p, _, _, _) => Some(Expect(r, p, WOwned))
    case HDrop(_, r, p) => Some(Expect(r, p, WOwned))
    case _ => None
  }

  ghost function ThreadExpects(th: ThreadState, t: nat, role: Role): Option<Expect> {
    match role
    case LoadClaim => LoadClaimOf(th.load, t)
    case LoadOwned => LoadOwnedOf(th.load)
    case LoadRepl => LoadReplOf(th.load)
    case Val => if th.op.Pay? then Some(Expect(th.op.val, th.op.gone, WOwned)) else None
    case Prepaid => PrepaidOf(th.op)
    case OldGuard => GuardOf(th.op)
    case NewVal => NewOf(th.op)
    case Replacement => ReplacementOf(th.op)
  }

  /** The one claim that holder `h` must have, if any. */
  ghost function Expects(s: State, h: Holder): Option<Expect> {
    match h
    case User => None
    case Thread(t, role) => if t < |s.threads| then ThreadExpects(s.threads[t], t, role) else None
    case Cell(a) =>
      if a < |s.storages| && s.storages[a].alive then Some(Expect(s.storages[a].claim, s.storages[a].ptr, WOwned))
      else None
    case Word(n) =>
      if n < |s.nodes| && s.nodes[n].control.Repl? then
        Some(Expect(s.nodes[n].control.claim, s.nodes[n].control.ptr, WOwned))
      else None
  }

  type Expectations = Holder -> Option<Expect>

  ghost predicate Holds(cs: seq<Claim>, h: Holder, e: Expect) {
    && e.c < |cs|
    && cs[e.c].holder == h && cs[e.c].ptr == e.ptr && Fits(cs[e.c].kind, e.want)
  }

  /** No live claim is forgotten: the user holds it, or its holder knows it. */
  ghost predicate Placed(cs: seq<Claim>, ex: Expectations, c: nat)
    requires c < |cs|
  {
    var h := cs[c].holder;
    if h.User? then Fits(cs[c].kind, WGuard) else ex(h).Some? && ex(h).value.c == c
  }

  ghost predicate OwnedBy(cs: seq<Claim>, ex: Expectations) {
    && (forall h: Holder :: ex(h).Some? ==> Holds(cs, h, ex(h).value))
    && (forall c: nat :: c < |cs| && !cs[c].kind.Spent? ==> Placed(cs, ex, c))
    && ex(User).None?
  }

  ghost function Expecting(s: State): Expectations {
    h => Expects(s, h)
  }

  ghost predicate AllHeld(s: State) {
    OwnedBy(s.book.claims, Expecting(s))
  }

  /** A new claim `cl` for a holder that had none, or for the user. */
  lemma Grown(cs: seq<Claim>, cl: Claim, ex: Expectations, ex': Expectations)
    requires OwnedBy(cs, ex) && !cl.kind.Spent? && ex'(User).None?
    requires forall h :: h != cl.holder ==> ex'(h) == ex(h)
    requires if cl.holder.User? then Fits(cl.kind, WGuard) else
      ex(cl.holder).None? && ex'(cl.holder).Some? && Holds(cs + [cl], cl.holder, ex'(cl.holder).value)
      && ex'(cl.holder).value.c == |cs|
    ensures OwnedBy(cs + [cl], ex')
  {
    var cs' := cs + [cl];
    forall h: Holder | ex'(h).Some? ensures Holds(cs', h, ex'(h).value) {
      if h != cl.holder { assert Holds(cs, h, ex(h).value); }
    }
    forall c: nat | c < |cs'| && !cs'[c].kind.Spent? ensures Placed(cs', ex', c) {
      if c < |cs| { assert Placed(cs, ex, c); }
    }
  }

  /** Claim `c` changes its kind or its holder, or is spent. */
  lemma Changed(cs: seq<Claim>, c: nat, cl: Claim, ex: Expectations, ex': Expectations)
    requires OwnedBy(cs, ex) && c < |cs| && !cs[c].kind.Spent? && ex'(User).None?
    requires forall h :: h != cl.holder && h != cs[c].holder ==> ex'(h) == ex(h)
    requires cl.holder != cs[c].holder ==> ex(cl.holder).None? && ex'(cs[c].holder).None?
    requires
      if cl.kind.Spent? then cl.holder == cs[c].holder && ex'(cl.holder).None?
      else if cl.holder.User? then Fits(cl.kind, WGuard)
      else ex'(cl.holder).Some? && Holds(cs[c := cl], cl.holder, ex'(cl.holder).value) && ex'(cl.holder).value.c == c
    ensures OwnedBy(cs[c := cl], ex')
  {
    var cs' := cs[c := cl];
    assert Placed(cs, ex, c);
    forall h: Holder | ex'(h).Some? ensures Holds(cs', h, ex'(h).value) {
      if h != cl.holder { assert Holds(cs, h, ex(h).value); }
    }
    forall d: nat | d < |cs'| && !cs'[d].kind.Spent? ensures Placed(cs', ex', d) {
      if d != c { assert Placed(cs, ex, d); }
    }
  }

  /** Claim `c` is spent and its holder gets the owned claim `d` instead. */
  lemma Replaced(cs: seq<Claim>, c: nat, d: nat, ex: Expectations, ex': Expectations)
    requires OwnedBy(cs, ex) && c < |cs| && d < |cs| && !cs[c].kind.Spent? && cs[d].kind.Owned?
    requires cs[c].holder != cs[d].holder && !cs[c].holder.User? && ex'(User).None?
    requires forall h :: h != cs[c].holder && h != cs[d].holder ==> ex'(h) == ex(h)
    requires ex'(cs[d].holder).None? && ex'(cs[c].holder).Some?
    requires var e := ex'(cs[c].holder).value; e.c == d && e.ptr == cs[d].ptr && Fits(Owned, e.want)
    ensures OwnedBy(cs[c := cs[c].(kind := Spent)][d := cs[d].(holder := cs[c].holder)], ex')
  {
    var h := cs[c].holder;
    var mid: Expectations := x => if x == h then None else ex(x);
    Changed(cs, c, cs[c].(kind := Spent), ex, mid);
    Changed(cs[c := cs[c].(kind := Spent)], d, cs[d].(holder := h), mid, ex');
  }

  /** Claim `c` is spent and claim `d` goes to the user. */
  lemma Returned(cs: seq<Claim>, c: nat, d: nat, ex: Expectations, ex': Expectations)
    requires OwnedBy(cs, ex) && c < |cs| && d < |cs| && !cs[c].kind.Spent? && Fits(cs[d].kind, WGuard)
    requires cs[c].holder != cs[d].holder && !cs[c].holder.User? && !cs[d].holder.User? && ex'(User).None?
    requires forall h :: h != cs[c].holder && h != cs[d].holder ==> ex'(h) == ex(h)
    requires ex'(cs[d].holder).None? && ex'(cs[c].holder).None?
    ensures OwnedBy(cs[c := cs[c].(kind := Spent)][d := cs[d].(holder := User)], ex')
  {
    var h := cs[c].holder;
    var mid: Expectations := x => if x == h then None else ex(x);
    Changed(cs, c, cs[c].(kind := Spent), ex, mid);
    Changed(cs[c := cs[c].(kind := Spent)], d, cs[d].(holder := User), mid, ex');
  }

  /** Claim `d` takes the place of claim `c`, which moves on to holder `h`. */
  lemma Displaced(cs: seq<Claim>, c: nat, d: nat, h: Holder, ex: Expectations, ex': Expectations)
    requires OwnedBy(cs, ex) && c < |cs| && d < |cs| && cs[c].kind.Owned? && cs[d].kind.Owned?
    requires cs[c].holder != cs[d].holder && !cs[c].holder.User? && !h.User? && ex'(User).None?
    requires h != cs[c].holder && h != cs[d].holder && ex(h).None?
    requires forall x :: x != cs[c].holder && x != cs[d].holder && x != h ==> ex'(x) == ex(x)
    requires ex'(cs[d].holder).None?
    requires ex'(cs[c].holder) == Some(Expect(d, cs[d].ptr, WOwned)) && ex'(h) == Some(Expect(c, cs[c].ptr, WOwned))
    ensures OwnedBy(cs[c := cs[c].(holder := h)][d := cs[d].(holder := cs[c].holder)], ex')
  {
    var g := cs[c].holder;
    var mid: Expectations := x => if x == g then None else if x == h then ex'(h) else ex(x);
    Changed(cs, c, cs[c].(holder := h), ex, mid);
    Changed(cs[c := cs[c].(holder := h)], d, cs[d].(holder := g), mid, ex');
  }

  lemma Unchanged(cs: seq<Claim>, ex: Expectations, ex': Expectations)
    requires OwnedBy(cs, ex) && forall h :: ex'(h) == ex(h)
    ensures OwnedBy(cs, ex')
  {
    forall h: Holder | ex'(h).Some? ensures Holds(cs, h, ex'(h).value) { assert Holds(cs, h, ex(h).value); }
    forall c: nat | c < |cs| && !cs[c].kind.Spent? ensures Placed(cs, ex', c) { assert Placed(cs, ex, c); }
  }

  /** Steps of thread `t` after which everybody expects what they expected before. */
  lemma QuietOwned(s: State, s': State, t: nat)
    requires AllHeld(s) && t < |s.threads| && s'.book.claims == s.book.claims && s'.storages == s.storages
    requires |s'.threads| == |s.threads| && |s'.nodes| == |s.nodes|
    requires forall u :: 0 <= u < |s.threads| && u != t ==> s'.threads[u] == s.threads[u]
    requires forall n :: 0 <= n < |s.nodes| ==>
      s'.nodes[n].control == s.nodes[n].control || (!s'.nodes[n].control.Repl? && !s.nodes[n].control.Repl?)
    requires forall role :: ThreadExpects(s'.threads[t], t, role) == ThreadExpects(s.threads[t], t, role)
    ensures AllHeld(s')
  {
    var ex, ex' := Expecting(s), Expecting(s');
    forall h ensures ex'(h) == ex(h) {
      match h
      case User =>
      case Thread(_, _) =>
      case Cell(_) =>
      case Word(_) =>
    }
    Unchanged(s.book.claims, ex, ex');
  }

  /** What thread `t` expects for role `r` is there. */
  lemma Served(s: State, t: nat, r: Role)
    requires AllHeld(s) && t < |s.threads| && ThreadExpects(s.threads[t], t, r).Some?
    ensures Holds(s.book.claims, Thread(t, r), ThreadExpects(s.threads[t], t, r).value)
  {
    assert Expecting(s)(Thread(t, r)).Some?;
  }

  // ---- The steps of a load ----

  lemma QuietLoadOwned(s: State, t: nat)
    requires AllHeld(s) && CanLoad(s, t)
    requires var pc := s.threads[t].load.pc;
      pc.ReadPtr? || pc.ScanFast? || pc.Publish? || pc.Open? || pc.ReadCand? || pc.StoreOffer?
      || (pc.TakeEnv? && s.envs[pc.env] == pc.rptr)
    requires s.nodes[t].control.Repl? ==> s.threads[t].load.pc.ReadCand?
    ensures AllHeld(RunLoad(s, t))
  {
    QuietOwned(s, RunLoad(s, t), t);
  }

  lemma PutFastOwned(s: State, t: nat)
    requires AllHeld(s) && CanLoad(s, t) && s.threads[t].load.pc.PutFast? && s.threads[t].load.pc.i < HELPING
    ensures AllHeld(DoPutFast(s, t))
  {
    var pc, b := s.threads[t].load.pc, s.book;
    Grown(b.claims, Claim(pc.ptr, Debt(SlotId(t, pc.i), false), Thread(t, LoadClaim)), Expecting(s),
          Expecting(DoPutFast(s, t)));
  }

  lemma PutCandOwned(s: State, t: nat)
    requires AllHeld(s) && CanLoad(s, t) && s.threads[t].load.pc.PutCand?
    ensures AllHeld(DoPutCand(s, t))
  {
    var pc, b := s.threads[t].load.pc, s.book;
    Grown(b.claims, Claim(pc.ptr, Debt(SlotId(t, HELPING), false), Thread(t, LoadClaim)), Expecting(s),
          Expecting(DoPutCand(s, t)));
  }

  lemma RecheckOwned(s: State, t: nat)
    requires AllHeld(s) && CanLoad(s, t) && s.threads[t].load.pc.Recheck?
    ensures AllHeld(DoRecheck(s, t))
  {
    var l, b := s.threads[t].load, s.book;
    Served(s, t, LoadClaim);
    if s.storages[l.a].ptr == l.pc.ptr {
      Changed(b.claims, l.pc.c, Confirm(b, l.pc.c).claims[l.pc.c], Expecting(s), Expecting(DoRecheck(s, t)));
    } else {
      QuietOwned(s, DoRecheck(s, t), t);
    }
  }

  lemma GiveBackOwned(s: State, t: nat)
    requires AllHeld(s) && CanLoad(s, t) && s.threads[t].load.pc.GiveBack?
    ensures AllHeld(DoGiveBack(s, t))
  {
    var pc, b := s.threads[t].load.pc, s.book;
    Served(s, t, LoadClaim);
    Changed(b.claims, pc.c, PayOwn(b, pc.c).claims[pc.c], Expecting(s), Expecting(DoGiveBack(s, t)));
  }

  lemma OwnIncOwned(s: State, t: nat)
    requires AllHeld(s) && CanLoad(s, t) && s.threads[t].load.pc.OwnInc?
    ensures AllHeld(DoOwnInc(s, t))
  {
    var pc, b := s.threads[t].load.pc, s.book;
    Grown(b.claims, Claim(pc.ptr, Owned, Thread(t, LoadOwned)), Expecting(s), Expecting(DoOwnInc(s, t)));
  }

  lemma OwnPayBackOwned(s: State, t: nat)
    requires AllHeld(s) && CanLoad(s, t) && s.threads[t].load.pc.OwnPay?
    requires Pays(s.book, s.book.claims[s.threads[t].load.pc.c].kind.at, s.threads[t].load.pc.ptr)
    ensures AllHeld(DoOwnPay(s, t))
  {
    var pc := s.threads[t].load.pc;
    Served(s, t, LoadClaim);
    Served(s, t, LoadOwned);
    Replaced(s.book.claims, pc.c, pc.d, Expecting(s), Expecting(DoOwnPay(s, t)));
  }

  lemma OwnPayLateOwned(s: State, t: nat)
    requires AllHeld(s) && CanLoad(s, t) && s.threads[t].load.pc.OwnPay?
    requires !Pays(s.book, s.book.claims[s.threads[t].load.pc.c].kind.at, s.threads[t].load.pc.ptr)
    ensures AllHeld(DoOwnPay(s, t))
  {
    var pc, b := s.threads[t].load.pc, s.book;
    Served(s, t, LoadClaim);
    Changed(b.claims, pc.c, b.claims[pc.c].(kind := Owned), Expecting(s), Expecting(DoOwnPay(s, t)));
  }

  lemma OwnDecOwned(s: State, t: nat)
    requires AllHeld(s) && CanLoad(s, t) && s.threads[t].load.pc.OwnDec?
    ensures AllHeld(DoOwnDec(s, t))
  {
    var pc := s.threads[t].load.pc;
    Served(s, t, LoadClaim);
    Served(s, t, LoadOwned);
    Replaced(s.book.claims, pc.c, pc.d, Expecting(s), Expecting(DoOwnDec(s, t)));
  }

  lemma DropCandBackOwned(s: State, t: nat)
    requires AllHeld(s) && CanLoad(s, t) && s.threads[t].load.pc.DropCand?
    requires Pays(s.book, s.book.claims[s.threads[t].load.pc.c].kind.at, s.threads[t].load.pc.ptr)
    ensures AllHeld(DoDropCand(s, t))
  {
    var pc := s.threads[t].load.pc;
    Served(s, t, LoadClaim);
    Served(s, t, LoadRepl);
    Replaced(s.book.claims, pc.c, pc.r, Expecting(s), Expecting(DoDropCand(s, t)));
  }

  lemma DropCandLateOwned(s: State, t: nat)
    requires AllHeld(s) && CanLoad(s, t) && s.threads[t].load.pc.DropCand?
    requires !Pays(s.book, s.book.claims[s.threads[t].load.pc.c].kind.at, s.threads[t].load.pc.ptr)
    ensures AllHeld(DoDropCand(s, t))
  {
    var pc, b := s.threads[t].load.pc, s.book;
    Served(s, t, LoadClaim);
    Changed(b.claims, pc.c, b.claims[pc.c].(kind := Owned), Expecting(s), Expecting(DoDropCand(s, t)));
  }

  lemma DecCandOwned(s: State, t: nat)
    requires AllHeld(s) && CanLoad(s, t) && s.threads[t].load.pc.DecCand?
    ensures AllHeld(DoDecCand(s, t))
  {
    var pc := s.threads[t].load.pc;
    Served(s, t, LoadClaim);
    Served(s, t, LoadRepl);
    Replaced(s.book.claims, pc.c, pc.r, Expecting(s), Expecting(DoDecCand(s, t)));
  }

  lemma CloseOwned(s: State, t: nat)
    requires AllHeld(s) && CanLoad(s, t) && s.threads[t].load.pc.Close? && !s.nodes[t].control.Repl?
    ensures AllHeld(DoClose(s, t))
  {
    var pc, ex, b := s.threads[t].load.pc, Expecting(s), s.book;
    Served(s, t, LoadClaim);
    if s.nodes[t].control == Gen(s.nodes[t].gen) {
      Changed(b.claims, pc.c, Confirm(b, pc.c).claims[pc.c], ex, Expecting(DoClose(s, t)));
    }
  }

  lemma HelpedOwned(s: State, t: nat)
    requires AllHeld(s) && CanLoad(s, t) && s.threads[t].load.pc.Close? && s.nodes[t].control.Repl?
    ensures AllHeld(DoClose(s, t))
  {
    var ex, b, w := Expecting(s), s.book, s.nodes[t].control;
    assert Holds(b.claims, Word(t), ex(Word(t)).value);
    Changed(b.claims, w.claim, b.claims[w.claim].(holder := Thread(t, LoadRepl)), ex, Expecting(DoClose(s, t)));
  }

  /** Whose load it is, as the operation of the thread says. */
  ghost predicate LoadMatchesOp(th: ThreadState) {
    || th.op.UserLoad? || th.op.CasLoad?
    || (th.op.Pay? && th.op.pc.Helping? && th.op.pc.h.HLoad? && th.load.Loading? && th.load.own)
  }

  lemma DeliverOwned(s: State, t: nat)
    requires AllHeld(s) && CanLoad(s, t) && s.threads[t].load.pc.Done? && LoadMatchesOp(s.threads[t])
    ensures AllHeld(DoDeliver(s, t))
  {
    var c, b, o := s.threads[t].load.pc.c, s.book, s.threads[t].op;
    Served(s, t, LoadClaim);
    var h := if o.UserLoad? then User else if o.CasLoad? then Thread(t, OldGuard) else Thread(t, Replacement);
    Changed(b.claims, c, b.claims[c].(holder := h), Expecting(s), Expecting(DoDeliver(s, t)));
  }

  lemma LoadStepOwned(s: State, t: nat)
    requires AllHeld(s) && CanLoad(s, t) && LoadMatchesOp(s.threads[t])
    requires s.nodes[t].control.Repl? ==>
      s.threads[t].load.pc.ReadCand? || s.threads[t].load.pc.PutCand? || s.threads[t].load.pc.Close?
    requires s.threads[t].load.pc.PutFast? ==> s.threads[t].load.pc.i < HELPING
    requires s.threads[t].load.pc.TakeEnv? ==> s.envs[s.threads[t].load.pc.env] == s.threads[t].load.pc.rptr
    ensures AllHeld(RunLoad(s, t))
  {
    match s.threads[t].load.pc
    case PutFast(_, _, _) => PutFastOwned(s, t);
    case Recheck(_, _, _) => RecheckOwned(s, t);
    case GiveBack(_, _, _) => GiveBackOwned(s, t);
    case PutCand(_, _) => PutCandOwned(s, t);
    case Close(_, _, _) => if s.nodes[t].control.Repl? { HelpedOwned(s, t); } else { CloseOwned(s, t); }
    case OwnInc(_, _, _) => OwnIncOwned(s, t);
    case OwnPay(p, _, c, _) =>
      if Pays(s.book, s.book.claims[c].kind.at, p) { OwnPayBackOwned(s, t); } else { OwnPayLateOwned(s, t); }
    case OwnDec(_, _, _, _) => OwnDecOwned(s, t);
    case DropCand(p, c, _, _, _) =>
      if Pays(s.book, s.book.claims[c].kind.at, p) { DropCandBackOwned(s, t); } else { DropCandLateOwned(s, t); }
    case DecCand(_, _, _, _, _) => DecCandOwned(s, t);
    case Done(_, _, _) => DeliverOwned(s, t);
    case _ => QuietLoadOwned(s, t);
  }

  // ---- The steps of `pay_all` and `help` ----

  lemma QuietPayOwned(s: State, t: nat)
    requires AllHeld(s) && CanPay(s, t) && s.threads[t].load.NoLoad? && !s.threads[t].op.pc.Helping?
    requires var o := s.threads[t].op;
      o.pc.PayHead? || (o.pc.PaySlot? && !Pays(s.book, SlotId(o.pc.rest[0], o.pc.i), o.gone))
    ensures AllHeld(RunPay(s, t))
  {
    QuietOwned(s, RunPay(s, t), t);
  }

  lemma LookingOwned(s: State, t: nat)
    requires AllHeld(s) && CanHelp(s, t) && s.threads[t].load.NoLoad?
    requires var h := s.threads[t].op.pc.h; h.HRead? || h.HAddr? || h.HRecheck? || h.HStore?
    ensures AllHeld(RunHelp(s, t))
  {
    QuietOwned(s, RunHelp(s, t), t);
  }

  lemma QuietHelpOwned(s: State, t: nat)
    requires AllHeld(s) && CanHelp(s, t) && s.threads[t].load.NoLoad?
    requires var o := s.threads[t].op; !o.pc.h.HDrop? && !(o.pc.h.HCas? && s.nodes[Who(s, t)].control == Gen(o.pc.h.g))
    ensures AllHeld(RunHelp(s, t))
  {
    var h := s.threads[t].op.pc.h;
    if h.HRead? || h.HAddr? || h.HRecheck? || h.HStore? { LookingOwned(s, t); }
    else { QuietOwned(s, RunHelp(s, t), t); }
  }

  lemma HCasOwned(s: State, t: nat)
    requires AllHeld(s) && CanHelp(s, t) && s.threads[t].op.pc.h.HCas?
    requires s.nodes[Who(s, t)].control == Gen(s.threads[t].op.pc.h.g)
    ensures AllHeld(DoHCas(s, t))
  {
    var r, b := s.threads[t].op.pc.h.r, s.book;
    Served(s, t, Replacement);
    Changed(b.claims, r, b.claims[r].(holder := Word(Who(s, t))), Expecting(s), Expecting(DoHCas(s, t)));
  }

  lemma HDropOwned(s: State, t: nat)
    requires AllHeld(s) && CanHelp(s, t) && s.threads[t].op.pc.h.HDrop?
    ensures AllHeld(DoHDrop(s, t))
  {
    var r, b := s.threads[t].op.pc.h.r, s.book;
    Served(s, t, Replacement);
    Changed(b.claims, r, b.claims[r].(kind := Spent), Expecting(s), Expecting(DoHDrop(s, t)));
  }

  lemma PayIncOwned(s: State, t: nat)
    requires AllHeld(s) && CanPay(s, t) && (s.threads[t].op.pc.PayInc? || s.threads[t].op.pc.PaySlotInc?)
    ensures AllHeld(RunPay(s, t))
  {
    Grown(s.book.claims, Claim(s.threads[t].op.gone, Owned, Thread(t, Prepaid)), Expecting(s), Expecting(RunPay(s, t)));
  }

  lemma PaySlotOwned(s: State, t: nat)
    requires AllHeld(s) && CanPay(s, t) && s.threads[t].op.pc.PaySlot?
    requires Pays(s.book, SlotId(s.threads[t].op.pc.rest[0], s.threads[t].op.pc.i), s.threads[t].op.gone)
    ensures AllHeld(DoPaySlot(s, t))
  {
    var pre, b := s.threads[t].op.pc.pre, s.book;
    Served(s, t, Prepaid);
    Changed(b.claims, pre, b.claims[pre].(kind := Spent), Expecting(s), Expecting(DoPaySlot(s, t)));
  }

  lemma PayEndOwned(s: State, t: nat)
    requires AllHeld(s) && CanPay(s, t) && s.threads[t].op.pc.PayEnd?
    ensures AllHeld(DoPayEnd(s, t))
  {
    var pre, b := s.threads[t].op.pc.pre, s.book;
    Served(s, t, Prepaid);
    Changed(b.claims, pre, b.claims[pre].(kind := Spent), Expecting(s), Expecting(DoPayEnd(s, t)));
  }

  lemma PayRetOwned(s: State, t: nat)
    requires AllHeld(s) && CanPay(s, t) && s.threads[t].op.pc.PayRet?
    ensures AllHeld(DoPayRet(s, t))
  {
    var o, b := s.threads[t].op, s.book;
    Served(s, t, Val);
    match o.after
    case RetOld(_) =>
      Changed(b.claims, o.val, b.claims[o.val].(holder := User), Expecting(s), Expecting(DoPayRet(s, t)));
    case Destroy =>
      Changed(b.claims, o.val, b.claims[o.val].(kind := Spent), Expecting(s), Expecting(DoPayRet(s, t)));
    case RetGuard(guard, _, _) =>
      Served(s, t, OldGuard);
      Returned(b.claims, o.val, guard, Expecting(s), Expecting(DoPayRet(s, t)));
  }

  lemma PayStepOwned(s: State, t: nat)
    requires AllHeld(s) && CanPay(s, t) && s.threads[t].load.NoLoad?
    ensures AllHeld(RunPay(s, t))
  {
    var o := s.threads[t].op;
    match o.pc
    case PayInc => PayIncOwned(s, t);
    case PaySlotInc(_, _) => PayIncOwned(s, t);
    case PayHead(_) => QuietPayOwned(s, t);
    case Helping(_, _, h) =>
      if h.HCas? && s.nodes[Who(s, t)].control == Gen(h.g) { HCasOwned(s, t); }
      else if h.HDrop? { HDropOwned(s, t); }
      else { QuietHelpOwned(s, t); }
    case PaySlot(_, rest, i) =>
      if Pays(s.book, SlotId(rest[0], i), o.gone) { PaySlotOwned(s, t); } else { QuietPayOwned(s, t); }
    case PayEnd(_) => PayEndOwned(s, t);
    case PayRet => PayRetOwned(s, t);
  }

  // ---- The exchange of a storage's pointer ----

  lemma InstallOwned(s: State, t: nat, a: nat, p: Ptr, c: nat, expected: Option<Ptr>, after: After)
    requires AllHeld(s) && t < |s.threads| && Usable(s, a) && c < |s.book.claims|
    requires s.book.claims[c].kind.Owned? && s.book.claims[c].ptr == p
    requires s.threads[t].load.NoLoad?
    requires
      || ((s.threads[t].op.Ready? || s.threads[t].op.Detached?) && s.book.claims[c].holder.User? && after.RetOld?)
      || (s.threads[t].op.CasTry? && s.threads[t].op.neu == c
          && after == RetGuard(s.threads[t].op.guard, s.threads[t].op.cur, p)
          && s.storages[a].ptr == s.threads[t].op.cur)
    ensures AllHeld(Install(s, t, a, p, c, expected, after))
  {
    var st, ex := s.storages[a], Expecting(s);
    assert Holds(s.book.claims, Cell(a), ex(Cell(a)).value);
    if s.threads[t].op.CasTry? { Served(s, t, NewVal); }
    Displaced(s.book.claims, st.claim, c, Thread(t, Val), ex, Expecting(Install(s, t, a, p, c, expected, after)));
  }

  lemma CasTryOwned(s: State, t: nat)
    requires AllHeld(s) && CanCas(s, t) && s.threads[t].op.CasTry? && s.threads[t].load.NoLoad?
    requires s.storages[s.threads[t].op.a].alive && s.storages[s.threads[t].op.a].ptr == s.threads[t].op.cur
    ensures AllHeld(DoCasTry(s, t))
  {
    var o := s.threads[t].op;
    Served(s, t, NewVal);
    InstallOwned(s, t, o.a, o.nptr, o.neu, Some(o.cur), RetGuard(o.guard, o.cur, o.nptr));
  }

  lemma CasFailOwned(s: State, t: nat)
    requires AllHeld(s) && InCas(s, t) && s.threads[t].op.CasTry?
    ensures AllHeld(DoCasFail(s, t))
  {
    var guard := s.threads[t].op.guard;
    Served(s, t, OldGuard);
    var cl := s.book.claims[guard];
    assert s.book.claims[guard := cl] == s.book.claims;
    Changed(s.book.claims, guard, cl, Expecting(s), Expecting(DoCasFail(s, t)));
  }

  lemma CasDropOwned(s: State, t: nat)
    requires AllHeld(s) && CanCas(s, t) && s.threads[t].load.NoLoad?
    requires s.threads[t].op.CasDropPay? || s.threads[t].op.CasDropDec?
    ensures AllHeld(RunCas(s, t))
  {
    var guard := s.threads[t].op.guard;
    Served(s, t, OldGuard);
    var s' := RunCas(s, t);
    Changed(s.book.claims, guard, s'.book.claims[guard], Expecting(s), Expecting(s'));
  }

  lemma CasMissOwned(s: State, t: nat)
    requires AllHeld(s) && CanCas(s, t) && s.threads[t].op.CasMiss?
    ensures AllHeld(DoCasMiss(s, t))
  {
    var o := s.threads[t].op;
    Served(s, t, OldGuard);
    Served(s, t, NewVal);
    Returned(s.book.claims, o.neu, o.guard, Expecting(s), Expecting(DoCasMiss(s, t)));
  }

  lemma CasStepOwned(s: State, t: nat)
    requires AllHeld(s) && CanCas(s, t) && s.threads[t].load.NoLoad? && s.storages[s.threads[t].op.a].alive
    ensures AllHeld(RunCas(s, t))
  {
    var o := s.threads[t].op;
    match o
    case CasTry(a, cur, _, _, _, _) => if s.storages[a].ptr == cur { CasTryOwned(s, t); } else { CasFailOwned(s, t); }
    case CasMiss(_, _, _, _, _, _, _) => CasMissOwned(s, t);
    case _ => CasDropOwned(s, t);
  }

  // ---- The steps of the program around ----

  lemma AttachOwned(s: State, t: nat, weak: bool)
    requires AllHeld(s) && t < |s.threads| && Unattached(s.threads[t].op)
    ensures AllHeld(DoAttach(s, t, weak))
  {
    QuietOwned(s, DoAttach(s, t, weak), t);
  }

  lemma LoadFromOwned(s: State, t: nat, a: nat)
    requires AllHeld(s) && IsReady(s, t) && Usable(s, a)
    ensures AllHeld(DoLoadFrom(s, t, a))
  {
    QuietOwned(s, DoLoadFrom(s, t, a), t);
  }

  lemma CompareAndSwapOwned(s: State, t: nat, a: nat, cur: Ptr, c: nat)
    requires AllHeld(s) && IsReady(s, t) && Usable(s, a) && UserOwns(s, c)
    ensures AllHeld(DoCompareAndSwap(s, t, a, cur, c))
  {
    Changed(s.book.claims, c, s.book.claims[c].(holder := Thread(t, NewVal)), Expecting(s),
            Expecting(DoCompareAndSwap(s, t, a, cur, c)));
  }

  lemma TakeOutOwned(s: State, t: nat, a: nat, destroy: bool)
    requires AllHeld(s) && IsFree(s, t) && Usable(s, a)
    ensures AllHeld(DoTakeOut(s, t, a, destroy))
  {
    var st, ex := s.storages[a], Expecting(s);
    assert Holds(s.book.claims, Cell(a), ex(Cell(a)).value);
    Changed(s.book.claims, st.claim, s.book.claims[st.claim].(holder := Thread(t, Val)), ex,
            Expecting(DoTakeOut(s, t, a, destroy)));
  }

  lemma NewStorageOwned(s: State, c: nat, fast: bool)
    requires AllHeld(s) && UserOwns(s, c)
    ensures AllHeld(DoNewStorage(s, c, fast))
  {
    Changed(s.book.claims, c, s.book.claims[c].(holder := Cell(|s.storages|)), Expecting(s),
            Expecting(DoNewStorage(s, c, fast)));
  }

  lemma UserStepOwned(s: State, step: Step)
    requires AllHeld(s) && Enabled(s, step) && (step.NewObject? || step.Clone? || step.ReturnDebt? || step.Release?)
    ensures AllHeld(Next(s, step))
  {
    var s' := Next(s, step);
    var ex, ex', cs := Expecting(s), Expecting(s'), s.book.claims;
    if step.NewObject? {
      Grown(cs, Claim(|s.book.cnt|, Owned, User), ex, ex');
    } else if step.Clone? {
      Grown(cs, Claim(cs[step.c].ptr, Owned, User), ex, ex');
    } else {
      Changed(cs, step.c, s'.book.claims[step.c], ex, ex');
    }
  }
}
