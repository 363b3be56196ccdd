/**
 The accounting layer: reference counts, debt slots and the claims on counted objects.

 A claim is one Rust value that stands for a reference: the pointer inside a storage, an owned
 handle, a guard, a reader's not yet confirmed debt, a writer's pre-paid count, or a replacement
 travelling in a control word. Claims are history variables; they carry the ownership that Rust's
 types carry. Counts and slots are the shared memory of the crate.
 */
module Ledger {

  /** The identity of a counted object. Identities are allocated once and never reused. */
  type Ptr = nat

  const FAST_SLOTS := 8
  /** The index of the helping slot of a node, behind its fast slots. */
  const HELPING := 8

  datatype Option<+T> = None | Some(value: T)

  datatype SlotId = SlotId(node: nat, idx: nat)

  /** A debt slot. `filler` is the claim that wrote the current value. */
  datatype Slot = Slot(val: Option<Ptr>, filler: nat)

  /** What a thread needs a claim for. */
  datatype Role = LoadClaim | LoadOwned | LoadRepl | Val | Prepaid | OldGuard | NewVal | Replacement

  datatype Holder = User | Thread(t: nat, role: Role) | Cell(a: nat) | Word(n: nat)

  /** `Owned` is backed by one unit of the count; `Debt` may be backed by a slot instead. */
  datatype Kind = Spent | Owned | Debt(at: SlotId, confirmed: bool)

  datatype Claim = Claim(ptr: Ptr, kind: Kind, holder: Holder)

  datatype Book = Book(cnt: seq<int>, slots: map<SlotId, Slot>, claims: seq<Claim>)

  /** Claim `c` is covered by a slot and not by the count. */
  ghost predicate Owes(b: Book, c: nat)
    requires c < |b.claims|
  {
    var cl := b.claims[c];
    && cl.kind.Debt?
    && cl.kind.at in b.slots
    && b.slots[cl.kind.at] == Slot(Some(cl.ptr), c)
  }

  /** Claim `c` is covered by one unit of the count of its object. */
  ghost predicate Paid(b: Book, c: nat)
    requires c < |b.claims|
  {
    !b.claims[c].kind.Spent? && !Owes(b, c)
  }

  ghost function PaidOn(b: Book, p: Ptr): set<nat> {
    set c: nat | c < |b.claims| && b.claims[c].ptr == p && Paid(b, c)
  }

  ghost function OwingOn(b: Book, p: Ptr): set<nat> {
    set c: nat | c < |b.claims| && b.claims[c].ptr == p && Owes(b, c)
  }

  ghost function LiveOn(b: Book, p: Ptr): set<nat> {
    set c: nat | c < |b.claims| && b.claims[c].ptr == p && !b.claims[c].kind.Spent?
  }

  ghost function SlotsOn(b: Book, p: Ptr): set<SlotId> {
    set x | x in b.slots && b.slots[x].val == Some(p)
  }

  /** Every value in a slot was put there by a claim that still waits for it. */
  ghost predicate SlotsFilled(b: Book) {
    forall x :: x in b.slots && b.slots[x].val.Some? ==>
      var c := b.slots[x].filler;
      c < |b.claims| && b.claims[c].ptr == b.slots[x].val.value
      && b.claims[c].kind.Debt? && b.claims[c].kind.at == x
  }

  ghost predicate ClaimsInRange(b: Book) {
    forall c :: 0 <= c < |b.claims| ==>
      b.claims[c].ptr < |b.cnt| && (b.claims[c].kind.Debt? ==> b.claims[c].kind.at in b.slots)
  }

  ghost predicate CountsExact(b: Book) {
    forall p: Ptr :: p < |b.cnt| ==> b.cnt[p] == |PaidOn(b, p)|
  }

  ghost predicate Balanced(b: Book) {
    SlotsFilled(b) && ClaimsInRange(b) && CountsExact(b)
  }

  // ---- The operations on counts and slots ----

  /** `T::inc`: one more unit of the count, owned by `h`. */
  function Inc(b: Book, p: Ptr, h: Holder): Book
    requires p < |b.cnt|
  {
    b.(cnt := b.cnt[p := b.cnt[p] + 1], claims := b.claims + [Claim(p, Owned, h)])
  }

  /** `T::dec`: gives one owned unit of the count back. */
  function Dec(b: Book, c: nat): Book
    requires c < |b.claims| && b.claims[c].ptr < |b.cnt|
  {
    var p := b.claims[c].ptr;
    b.(cnt := b.cnt[p := b.cnt[p] - 1], claims := b.claims[c := b.claims[c].(kind := Spent)])
  }

  /** A new object with one owner. */
  function Alloc(b: Book, h: Holder): Book {
    b.(cnt := b.cnt + [1], claims := b.claims + [Claim(|b.cnt|, Owned, h)])
  }

  /** A reader writes a debt into a slot. */
  function Place(b: Book, x: SlotId, p: Ptr, h: Holder): Book {
    b.(slots := b.slots[x := Slot(Some(p), |b.claims|)],
       claims := b.claims + [Claim(p, Debt(x, false), h)])
  }

  /** Whether `Debt::pay` on slot `x` for object `p` succeeds. */
  predicate Pays(b: Book, x: SlotId, p: Ptr) {
    x in b.slots && b.slots[x].val == Some(p)
  }

  /** `Debt::pay` by the claim that refers to the slot: the debt is returned, or had been paid. */
  function PayOwn(b: Book, c: nat): Book
    requires c < |b.claims| && b.claims[c].kind.Debt?
  {
    var x := b.claims[c].kind.at;
    if Pays(b, x, b.claims[c].ptr) then
      b.(slots := b.slots[x := b.slots[x].(val := None)], claims := b.claims[c := b.claims[c].(kind := Spent)])
    else
      b.(claims := b.claims[c := b.claims[c].(kind := Owned)])
  }

  /** `Debt::pay` by a writer with the pre-paid claim `k`: its unit of the count goes to the filler. */
  function PayFor(b: Book, x: SlotId, k: nat): Book
    requires k < |b.claims|
  {
    if Pays(b, x, b.claims[k].ptr) then
      b.(slots := b.slots[x := b.slots[x].(val := None)], claims := b.claims[k := b.claims[k].(kind := Spent)])
    else b
  }

  /** The reader has seen that its debt was placed in time. */
  function Confirm(b: Book, c: nat): Book
    requires c < |b.claims| && b.claims[c].kind.Debt?
  {
    b.(claims := b.claims[c := b.claims[c].(kind := b.claims[c].kind.(confirmed := true))])
  }

  /** A claim changes hands. */
  function Move(b: Book, c: nat, h: Holder): Book
    requires c < |b.claims|
  {
    b.(claims := b.claims[c := b.claims[c].(holder := h)])
  }

  // ---- Every operation keeps the books balanced ----

  /** An appended owned claim adds one paid claim on its object and none on others. */
  lemma GrownPaid(b: Book, b': Book, cl: Claim, q: Ptr)
    requires b'.slots == b.slots && b'.claims == b.claims + [cl] && cl.kind.Owned?
    ensures |PaidOn(b', q)| == |PaidOn(b, q)| + if cl.ptr == q then 1 else 0
  {
    var n := |b.claims|;
    var added := if cl.ptr == q then {n} else {};
    forall c: nat ensures c in PaidOn(b', q) <==> c in PaidOn(b, q) + added {
      if c < n {
        assert b'.claims[c] == b.claims[c];
      }
    }
    assert PaidOn(b', q) == PaidOn(b, q) + added;
  }

  /** A slot was paid with claim `k`. */
  ghost predicate HandedOver(b: Book, b': Book, x: SlotId, k: nat) {
    && k < |b.claims| && Pays(b, x, b.claims[k].ptr)
    && (b.claims[k].kind.Owned? || (b.claims[k].kind.Debt? && b.claims[k].kind.at == x))
    && b'.slots == b.slots[x := b.slots[x].(val := None)]
    && b'.claims == b.claims[k := b.claims[k].(kind := Spent)]
  }

  lemma HandedOverPaid(b: Book, b': Book, x: SlotId, k: nat, c: nat)
    requires SlotsFilled(b) && HandedOver(b, b', x, k) && c < |b.claims|
    ensures Paid(b', c) <==> c != k && (c == b.slots[x].filler || Paid(b, c))
  {
  }

  /** The payer's claim leaves the paid claims and the filler joins them. */
  lemma HandedOverCount(b: Book, b': Book, x: SlotId, k: nat, q: Ptr)
    requires SlotsFilled(b) && HandedOver(b, b', x, k)
    ensures |PaidOn(b', q)| == |PaidOn(b, q)|
  {
    var f := b.slots[x].filler;
    var swap := q == b.claims[k].ptr && f != k;
    var after := if swap then PaidOn(b, q) - {k} + {f} else PaidOn(b, q);
    forall c: nat ensures c in PaidOn(b', q) <==> c in after {
      if c < |b.claims| { HandedOverPaid(b, b', x, k, c); }
    }
    assert PaidOn(b', q) == after;
    assert f !in PaidOn(b, q) && (swap ==> k in PaidOn(b, q));
  }

  lemma IncBalanced(b: Book, p: Ptr, h: Holder)
    requires Balanced(b) && p < |b.cnt|
    ensures Balanced(Inc(b, p, h))
  {
    var b' := Inc(b, p, h);
    forall q: Ptr | q < |b'.cnt| ensures b'.cnt[q] == |PaidOn(b', q)| {
      GrownPaid(b, b', Claim(p, Owned, h), q);
    }
  }

  lemma DecBalanced(b: Book, c: nat)
    requires Balanced(b) && c < |b.claims| && b.claims[c].kind.Owned?
    ensures Balanced(Dec(b, c))
  {
    var b' := Dec(b, c);
    var p := b.claims[c].ptr;
    forall q: Ptr | q < |b'.cnt| ensures b'.cnt[q] == |PaidOn(b', q)| {
      assert PaidOn(b', q) == PaidOn(b, q) - {c};
      assert c in PaidOn(b, p);
    }
  }

  lemma AllocBalanced(b: Book, h: Holder)
    requires Balanced(b)
    ensures Balanced(Alloc(b, h))
  {
    var b' := Alloc(b, h);
    assert PaidOn(b, |b.cnt|) == {};
    forall q: Ptr | q < |b'.cnt| ensures b'.cnt[q] == |PaidOn(b', q)| {
      GrownPaid(b, b', Claim(|b.cnt|, Owned, h), q);
    }
  }

  lemma PlaceBalanced(b: Book, x: SlotId, p: Ptr, h: Holder)
    requires Balanced(b) && x in b.slots && b.slots[x].val.None? && p < |b.cnt|
    ensures Balanced(Place(b, x, p, h))
  {
    var b' := Place(b, x, p, h);
    forall q: Ptr | q < |b'.cnt| ensures b'.cnt[q] == |PaidOn(b', q)| {
      assert PaidOn(b', q) == PaidOn(b, q);
    }
  }

  /** Including the case in which the slot was filled anew, by another claim on the same object. */
  lemma PayOwnBalanced(b: Book, c: nat)
    requires Balanced(b) && c < |b.claims| && b.claims[c].kind.Debt?
    ensures Balanced(PayOwn(b, c))
  {
    var b' := PayOwn(b, c);
    var x, p := b.claims[c].kind.at, b.claims[c].ptr;
    forall q: Ptr | q < |b'.cnt| ensures b'.cnt[q] == |PaidOn(b', q)| {
      if Pays(b, x, p) {
        HandedOverCount(b, b', x, c, q);
      } else {
        assert PaidOn(b', q) == PaidOn(b, q);
      }
    }
  }

  lemma PayForBalanced(b: Book, x: SlotId, k: nat)
    requires Balanced(b) && k < |b.claims| && b.claims[k].kind.Owned?
    ensures Balanced(PayFor(b, x, k))
  {
    var b' := PayFor(b, x, k);
    var p := b.claims[k].ptr;
    if Pays(b, x, p) {
      forall q: Ptr | q < |b'.cnt| ensures b'.cnt[q] == |PaidOn(b', q)| {
        HandedOverCount(b, b', x, k, q);
      }
    }
  }

  lemma ConfirmBalanced(b: Book, c: nat)
    requires Balanced(b) && c < |b.claims| && b.claims[c].kind.Debt?
    ensures Balanced(Confirm(b, c))
  {
    var b' := Confirm(b, c);
    forall q: Ptr | q < |b'.cnt| ensures b'.cnt[q] == |PaidOn(b', q)| {
      assert PaidOn(b', q) == PaidOn(b, q);
    }
  }

  lemma MoveBalanced(b: Book, c: nat, h: Holder)
    requires Balanced(b) && c < |b.claims|
    ensures Balanced(Move(b, c, h))
  {
    var b' := Move(b, c, h);
    forall q: Ptr | q < |b'.cnt| ensures b'.cnt[q] == |PaidOn(b', q)| {
      assert PaidOn(b', q) == PaidOn(b, q);
    }
  }

  // ---- What balanced books say ----

  lemma PaidIsCounted(b: Book, c: nat)
    requires Balanced(b) && c < |b.claims| && Paid(b, c)
    ensures b.cnt[b.claims[c].ptr] >= 1
  {
    assert c in PaidOn(b, b.claims[c].ptr);
  }

  lemma {:induction false} SameSize<A, B>(xs: set<A>, ys: set<B>, f: map<A, B>)
    requires forall x :: x in xs ==> x in f && f[x] in ys
    requires forall x, y :: x in xs && y in xs && f[x] == f[y] ==> x == y
    requires forall y :: y in ys ==> exists x :: x in xs && f[x] == y
    ensures |xs| == |ys|
  {
    if xs != {} {
      var x :| x in xs;
      SameSize(xs - {x}, ys - {f[x]}, f);
    } else {
      assert ys == {};
    }
  }

  lemma OwingMatchSlots(b: Book, p: Ptr)
    requires SlotsFilled(b)
    ensures |OwingOn(b, p)| == |SlotsOn(b, p)|
  {
    var owing := OwingOn(b, p);
    var at := map c: nat | c in owing :: b.claims[c].kind.at;
    forall x | x in SlotsOn(b, p) ensures exists c :: c in owing && at[c] == x {
      assert b.slots[x].filler in owing;
    }
    SameSize(owing, SlotsOn(b, p), at);
  }

  /** The conservation law: the count plus the debts on an object equal the claims on it. */
  lemma Conservation(b: Book, p: Ptr)
    requires Balanced(b) && p < |b.cnt|
    ensures b.cnt[p] + |SlotsOn(b, p)| == |LiveOn(b, p)|
  {
    OwingMatchSlots(b, p);
    assert LiveOn(b, p) == PaidOn(b, p) + OwingOn(b, p);
    assert PaidOn(b, p) !! OwingOn(b, p);
  }
}
