/**
 What the protocol guarantees about counts, in every state of every run: nothing that somebody holds
 has been freed, nothing freed comes back, and no count is lost.
 */
module Safety {
  import opened Ledger
  import opened Machine
  import opened Ownership
  import opened Protocol
  import opened Backing
  import opened Invariant

  /** Claim `c` may be used to reach its object: a full count, or a confirmed debt. */
  ghost predicate Reaches(b: Book, c: nat) {
    c < |b.claims| && (b.claims[c].kind.Owned? || (b.claims[c].kind.Debt? && b.claims[c].kind.confirmed))
  }

  lemma OwnedIsCounted(s: State, h: Holder)
    requires Balanced(s.book) && AllHeld(s) && Expects(s, h).Some? && Expects(s, h).value.want.WOwned?
    ensures Expects(s, h).value.ptr < |s.book.cnt| && s.book.cnt[Expects(s, h).value.ptr] >= 1
  {
    var e := Expecting(s)(h).value;
    assert Holds(s.book.claims, h, e);
    PaidIsCounted(s.book, e.c);
  }

  /** Whatever can be reached is alive. */
  lemma ReachedIsAlive(s: State, c: nat)
    requires Inv(s) && Reaches(s.book, c)
    ensures s.book.claims[c].ptr < |s.book.cnt| && s.book.cnt[s.book.claims[c].ptr] >= 1
  {
    var p := s.book.claims[c].ptr;
    if Owes(s.book, c) {
      var x := s.book.claims[c].kind.at;
      assert Backed(s, x, p);
      if a: nat :| Stores(s, a, p) {
        OwnedIsCounted(s, Cell(a));
      } else {
        var w: nat :| WatchedBy(s, w, x, p);
        OwnedIsCounted(s, Thread(w, Val));
      }
    } else {
      PaidIsCounted(s.book, c);
    }
  }

  /** In every interleaving: storages, handles, guards and replacements on their way have live objects. */
  lemma NothingDangles(run: seq<State>, steps: seq<Step>, i: nat)
    requires IsRun(run, steps) && i < |run|
    ensures var s := run[i];
      && (forall c: nat :: Reaches(s.book, c) ==>
        s.book.claims[c].ptr < |s.book.cnt| && s.book.cnt[s.book.claims[c].ptr] >= 1)
      && (forall a :: 0 <= a < |s.storages| && s.storages[a].alive ==>
        s.storages[a].ptr < |s.book.cnt| && s.book.cnt[s.storages[a].ptr] >= 1)
  {
    RunsInv(run, steps, i);
    var s := run[i];
    forall c: nat | Reaches(s.book, c)
      ensures s.book.claims[c].ptr < |s.book.cnt| && s.book.cnt[s.book.claims[c].ptr] >= 1
    {
      ReachedIsAlive(s, c);
    }
    forall a | 0 <= a < |s.storages| && s.storages[a].alive
      ensures s.storages[a].ptr < |s.book.cnt| && s.book.cnt[s.storages[a].ptr] >= 1
    {
      OwnedIsCounted(s, Cell(a));
    }
  }

  // ---- Counts are touched only while they are positive ----

  ghost predicate TouchesAlive(b: Book, b': Book) {
    |b.cnt| <= |b'.cnt| && forall p: Ptr :: p < |b.cnt| && b'.cnt[p] != b.cnt[p] ==> b.cnt[p] >= 1
  }

  lemma LoadTouches(s: State, t: nat)
    requires Inv(s) && CanLoad(s, t)
    ensures TouchesAlive(s.book, RunLoad(s, t).book)
  {
    var pc := s.threads[t].load.pc;
    if pc.OwnInc? || pc.OwnDec? || pc.DecCand? {
      Served(s, t, LoadClaim);
      ReachedIsAlive(s, pc.c);
    } else {
      assert RunLoad(s, t).book.cnt == s.book.cnt;
    }
  }

  lemma PayTouches(s: State, t: nat)
    requires Inv(s) && CanPay(s, t)
    ensures TouchesAlive(s.book, RunPay(s, t).book)
  {
    var o := s.threads[t].op;
    OwnedIsCounted(s, Thread(t, Val));
    if o.pc.Helping? && o.pc.h.HDrop? {
      Served(s, t, Replacement);
      ReachedIsAlive(s, o.pc.h.r);
    } else {
      Served(s, t, Val);
      if o.pc.PayEnd? { Served(s, t, Prepaid); }
    }
  }

  lemma CasTouches(s: State, t: nat)
    requires Inv(s) && CanCas(s, t)
    ensures TouchesAlive(s.book, RunCas(s, t).book)
  {
    var o := s.threads[t].op;
    Served(s, t, NewVal);
    Served(s, t, OldGuard);
    ReachedIsAlive(s, o.neu);
    ReachedIsAlive(s, o.guard);
  }

  /** No step increments or decrements the count of a freed object. */
  lemma StepTouches(s: State, step: Step)
    requires Inv(s) && Enabled(s, step)
    ensures TouchesAlive(s.book, Next(s, step).book)
  {
    match step
    case Run(t) =>
      if s.threads[t].load.Loading? { LoadTouches(s, t); }
      else if Unattached(s.threads[t].op) {}
      else if s.threads[t].op.Pay? { PayTouches(s, t); }
      else { CasTouches(s, t); }
    case Clone(c) =>
      assert Placed(s.book.claims, Expecting(s), c);
      ReachedIsAlive(s, c);
    case Release(c) => ReachedIsAlive(s, c);
    case _ =>
  }

  /** A freed object is never brought back. */
  lemma {:induction false} FreedStaysFreed(run: seq<State>, steps: seq<Step>, i: nat, j: nat, p: Ptr)
    requires IsRun(run, steps) && i <= j < |run| && p < |run[i].book.cnt| && run[i].book.cnt[p] == 0
    ensures p < |run[j].book.cnt| && run[j].book.cnt[p] == 0
    decreases j
  {
    if i < j {
      FreedStaysFreed(run, steps, i, j - 1, p);
      RunsInv(run, steps, j - 1);
      assert StepAt(run, steps, j - 1);
      StepTouches(run[j - 1], steps[j - 1]);
    }
  }

  // ---- Nothing is lost ----

  /** All threads are between operations. */
  ghost predicate AtRest(s: State) {
    forall t :: 0 <= t < |s.threads| ==>
      && s.threads[t].load.NoLoad?
      && (s.threads[t].op.Ready? || s.threads[t].op.Detached? || s.threads[t].op.Attaching?)
  }

  ghost function UserOn(s: State, p: Ptr): set<nat> {
    set c: nat | c in LiveOn(s.book, p) && s.book.claims[c].holder.User?
  }

  ghost function StoragesOn(s: State, p: Ptr): set<nat> {
    set a: nat | a < |s.storages| && s.storages[a].alive && s.storages[a].ptr == p
  }

  ghost function CellsOn(s: State, p: Ptr): set<nat> {
    set c: nat | c in LiveOn(s.book, p) && s.book.claims[c].holder.Cell?
  }

  lemma CellsAreStorages(s: State, p: Ptr)
    requires AllHeld(s)
    ensures |StoragesOn(s, p)| == |CellsOn(s, p)|
  {
    var f := map a: nat | a in StoragesOn(s, p) :: s.storages[a].claim;
    var ex, cs := Expecting(s), s.book.claims;
    forall a | a in StoragesOn(s, p) ensures f[a] in CellsOn(s, p) && cs[f[a]].holder == Cell(a) {
      assert Holds(cs, Cell(a), ex(Cell(a)).value);
    }
    forall c | c in CellsOn(s, p) ensures exists a :: a in StoragesOn(s, p) && f[a] == c {
      assert Placed(cs, ex, c);
      var a := cs[c].holder.a;
      assert Holds(cs, Cell(a), ex(Cell(a)).value);
      assert a in StoragesOn(s, p) && f[a] == c;
    }
    SameSize(StoragesOn(s, p), CellsOn(s, p), f);
  }

  lemma RestHolder(s: State, h: Holder)
    requires AtRest(s) && ThreadsOk(s) && Expects(s, h).Some?
    ensures h.Cell?
  {
    forall n | 0 <= n < |s.nodes| ensures !s.nodes[n].control.Repl? {
      assert ThreadOk(s, n);
    }
  }

  lemma RestClaims(s: State, p: Ptr)
    requires AtRest(s) && ThreadsOk(s) && AllHeld(s)
    ensures |LiveOn(s.book, p)| == |CellsOn(s, p)| + |UserOn(s, p)|
  {
    forall c | c in LiveOn(s.book, p) ensures c in CellsOn(s, p) + UserOn(s, p) {
      assert Placed(s.book.claims, Expecting(s), c);
      if !s.book.claims[c].holder.User? { RestHolder(s, s.book.claims[c].holder); }
    }
    assert LiveOn(s.book, p) == CellsOn(s, p) + UserOn(s, p);
    assert CellsOn(s, p) !! UserOn(s, p);
  }

  /** Between operations, counts plus debts are exactly the storages and what the program holds. */
  lemma NothingLeaks(run: seq<State>, steps: seq<Step>, i: nat, p: Ptr)
    requires IsRun(run, steps) && i < |run| && AtRest(run[i]) && p < |run[i].book.cnt|
    ensures var s := run[i]; s.book.cnt[p] + |SlotsOn(s.book, p)| == |StoragesOn(s, p)| + |UserOn(s, p)|
  {
    RunsInv(run, steps, i);
    Conservation(run[i].book, p);
    CellsAreStorages(run[i], p);
    RestClaims(run[i], p);
  }

  /** Claim `c` is the one that its holder expects. */
  ghost predicate Known(s: State, c: nat)
    requires c < |s.book.claims|
  {
    var h := s.book.claims[c].holder;
    h.User? || (Expects(s, h).Some? && Expects(s, h).value.c == c && Expects(s, h).value.ptr == s.book.claims[c].ptr)
  }

  /**
   At any time: counts plus debts are exactly the live claims. Each of them is known to its holder: the program, a
   storage, a control word, or a thread at a point that has such a claim; and each such holder has its claim.
   */
  lemma CountsAreClaims(run: seq<State>, steps: seq<Step>, i: nat, p: Ptr)
    requires IsRun(run, steps) && i < |run| && p < |run[i].book.cnt|
    ensures var s := run[i];
      && s.book.cnt[p] + |SlotsOn(s.book, p)| == |LiveOn(s.book, p)| && 0 <= s.book.cnt[p]
      && (forall c :: c in LiveOn(s.book, p) ==> Known(s, c))
      && (forall h: Holder :: Expects(s, h).Some? && Expects(s, h).value.ptr == p ==>
        Expects(s, h).value.c in LiveOn(s.book, p) && s.book.claims[Expects(s, h).value.c].holder == h)
  {
    RunsInv(run, steps, i);
    var s := run[i];
    Conservation(s.book, p);
    var ex, cs := Expecting(s), s.book.claims;
    forall h: Holder | Expects(s, h).Some? ensures Holds(cs, h, Expects(s, h).value) { assert ex(h).Some?; }
    forall c | c in LiveOn(s.book, p) ensures Known(s, c) {
      assert Placed(cs, ex, c);
    }
  }

  /**
   An unpaid confirmed debt is backed: some storage still has the object, or a writer that has taken it out of one has
   yet to come to the slot.
   */
  lemma DebtsAreBacked(run: seq<State>, steps: seq<Step>, i: nat, c: nat)
    requires IsRun(run, steps) && i < |run| && Confirmed(run[i].book, c) && Owes(run[i].book, c)
    ensures var s := run[i]; var x, p := s.book.claims[c].kind.at, s.book.claims[c].ptr;
      || (exists a: nat :: Stores(s, a, p))
      || (exists w: nat :: w < |s.threads| && Watches(s.threads[w].op, x) && s.threads[w].op.gone == p)
  {
    RunsInv(run, steps, i);
    assert Backed(run[i], run[i].book.claims[c].kind.at, run[i].book.claims[c].ptr);
    if w: nat :| WatchedBy(run[i], w, run[i].book.claims[c].kind.at, run[i].book.claims[c].ptr) {}
  }

  /** At each paying exchange the writer has a count of its own for the debt, besides the one it returns. */
  lemma PaymentsArePrepaid(run: seq<State>, steps: seq<Step>, i: nat, t: nat)
    requires IsRun(run, steps) && i < |run| && t < |run[i].threads| && run[i].threads[t].op.Pay?
    requires run[i].threads[t].op.pc.PaySlot?
    ensures var s := run[i]; var o := s.threads[t].op;
      && o.pc.pre < |s.book.claims| && s.book.claims[o.pc.pre] == Claim(o.gone, Owned, Thread(t, Prepaid))
      && o.val < |s.book.claims| && s.book.claims[o.val] == Claim(o.gone, Owned, Thread(t, Val))
      && o.gone < |s.book.cnt| && s.book.cnt[o.gone] >= 2
  {
    RunsInv(run, steps, i);
    var s := run[i];
    var o, b := s.threads[t].op, s.book;
    Served(s, t, Val);
    Served(s, t, Prepaid);
    assert o.val in PaidOn(b, o.gone) && o.pc.pre in PaidOn(b, o.gone);
    assert |PaidOn(b, o.gone) - {o.val}| >= 1 by { assert o.pc.pre in PaidOn(b, o.gone) - {o.val}; }
  }
}
