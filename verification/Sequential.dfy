/**
 The loops of the debt module as one thread runs them: the rotating search for a free fast slot, and
 the walk of `pay_all` over the linked nodes and their slots.
 */
module Sequential {
  import opened Ledger

  type SlotVal = Option<Ptr>

  // ---- fast::Slots::get_debt ----

  /** Slot `k` of the rotation that starts at `offset`. */
  function Rotated(offset: nat, k: nat): nat {
    (k + offset) % FAST_SLOTS
  }

  /** The first free slot in the rotation, searched from position `k` on. */
  function FirstFree(s: seq<SlotVal>, offset: nat, k: nat): Option<nat>
    requires |s| == FAST_SLOTS && k <= FAST_SLOTS
    decreases FAST_SLOTS - k
  {
    if k == FAST_SLOTS then None
    else if s[Rotated(offset, k)].None? then Some(Rotated(offset, k))
    else FirstFree(s, offset, k + 1)
  }

  class FastSlots {
    const slots: array<SlotVal>
    var offset: nat

    ghost predicate Valid()
      reads this
    {
      slots.Length == FAST_SLOTS && offset <= FAST_SLOTS
    }

    constructor ()
      ensures Valid() && fresh(slots) && offset == 0 && forall i :: 0 <= i < FAST_SLOTS ==> slots[i].None?
    {
      slots := new SlotVal[FAST_SLOTS](_ => None);
      offset := 0;
    }

    method GetDebt(ptr: Ptr) returns (r: Option<nat>)
      requires Valid()
      modifies this`offset, slots
      ensures Valid() && r == old(FirstFree(slots[..], offset, 0))
      ensures r.None? ==> slots[..] == old(slots[..]) && offset == old(offset)
      ensures r.Some? ==> NearestFree(old(slots[..]), old(offset), r.value)
      ensures r.Some? ==>
        && r.value < FAST_SLOTS && old(slots[r.value]).None?
        && slots[..] == old(slots[..])[r.value := Some(ptr)] && offset == r.value + 1
    {
      ghost var before := slots[..];
      var i := 0;
      while i < FAST_SLOTS
        invariant i <= FAST_SLOTS && Valid() && offset == old(offset) && slots[..] == before
        invariant FirstFree(before, offset, 0) == FirstFree(before, offset, i)
      {
        var j := Rotated(offset, i);
        if slots[j].None? {
          assert before[j].None?;
          SearchOrder(before, offset);
          slots[j] := Some(ptr);
          offset := j + 1;
          return Some(j);
        }
        assert !before[j].None?;
        i := i + 1;
      }
      return None;
    }
  }

  /** A debt is refused exactly when all eight slots are taken. */
  lemma {:induction false} RefusedWhenFull(s: seq<SlotVal>, offset: nat, k: nat)
    requires |s| == FAST_SLOTS && k <= FAST_SLOTS
    ensures FirstFree(s, offset, k).None? <==> forall i :: k <= i < FAST_SLOTS ==> s[Rotated(offset, i)].Some?
    decreases FAST_SLOTS - k
  {
    if k < FAST_SLOTS { RefusedWhenFull(s, offset, k + 1); }
  }

  /** The rotation meets every slot. */
  lemma RotationCovers(offset: nat, j: nat)
    requires j < FAST_SLOTS
    ensures exists k :: 0 <= k < FAST_SLOTS && Rotated(offset, k) == j
  {
    var k := (j + FAST_SLOTS - offset % FAST_SLOTS) % FAST_SLOTS;
    assert Rotated(offset, k) == j;
  }

  lemma RefusedIffFull(s: seq<SlotVal>, offset: nat)
    requires |s| == FAST_SLOTS
    ensures FirstFree(s, offset, 0).None? <==> forall j :: 0 <= j < FAST_SLOTS ==> s[j].Some?
  {
    RefusedWhenFull(s, offset, 0);
    if FirstFree(s, offset, 0).None? {
      forall j | 0 <= j < FAST_SLOTS ensures s[j].Some? {
        RotationCovers(offset, j);
        var k :| 0 <= k < FAST_SLOTS && Rotated(offset, k) == j;
        assert s[Rotated(offset, k)].Some?;
      }
    }
  }

  /** All slots from `i` up to `j` are taken. */
  predicate TakenFrom(s: seq<SlotVal>, i: nat, j: nat) {
    forall l :: i <= l < j && l < |s| ==> s[l].Some?
  }

  /** Slot `r` is free, and the first free one from `offset` on to the end, and then from the beginning. */
  predicate NearestFree(s: seq<SlotVal>, offset: nat, r: nat) {
    && r < |s| && s[r].None?
    && if offset <= r then TakenFrom(s, offset, r) else TakenFrom(s, offset, |s|) && TakenFrom(s, 0, r)
  }

  lemma RotatedIs(offset: nat, k: nat)
    requires offset <= FAST_SLOTS && k < FAST_SLOTS
    ensures Rotated(offset, k) == if offset + k < FAST_SLOTS then offset + k else offset + k - FAST_SLOTS
  {
  }

  lemma {:induction false} SearchFrom(s: seq<SlotVal>, offset: nat, k: nat)
    requires |s| == FAST_SLOTS && offset <= FAST_SLOTS && k <= FAST_SLOTS
    requires TakenFrom(s, offset, offset + k) && (offset + k > FAST_SLOTS ==> TakenFrom(s, 0, offset + k - FAST_SLOTS))
    ensures FirstFree(s, offset, k).Some? ==> NearestFree(s, offset, FirstFree(s, offset, k).value)
    decreases FAST_SLOTS - k
  {
    if k < FAST_SLOTS {
      RotatedIs(offset, k);
      if s[Rotated(offset, k)].Some? { SearchFrom(s, offset, k + 1); }
    }
  }

  /** The search goes up from the slot behind the last one taken, and round to the first. */
  lemma SearchOrder(s: seq<SlotVal>, offset: nat)
    requires |s| == FAST_SLOTS && offset <= FAST_SLOTS
    ensures FirstFree(s, offset, 0).Some? ==> NearestFree(s, offset, FirstFree(s, offset, 0).value)
  {
    SearchFrom(s, offset, 0);
  }

  // ---- Debt::pay_all ----

  /** The slots of one node, eight fast ones and the helping one, and the next node in the list. */
  class DebtNode {
    const slots: array<SlotVal>
    const next: DebtNode?

    constructor (tail: DebtNode?)
      ensures next == tail && fresh(slots) && slots.Length == HELPING + 1 && slots[..] == seq(HELPING + 1, _ => None)
    {
      slots := new SlotVal[HELPING + 1](_ => None);
      next := tail;
    }
  }

  class Counts {
    var cnt: map<Ptr, int>

    constructor ()
      ensures cnt == map[]
    {
      cnt := map[];
    }
  }

  /** The slots with the debts on `p` paid. */
  function Cleared(s: seq<SlotVal>, p: Ptr): (r: seq<SlotVal>)
    ensures |r| == |s| && forall i :: 0 <= i < |s| ==> r[i] == if s[i] == Some(p) then None else s[i]
  {
    seq(|s|, i requires 0 <= i < |s| => if s[i] == Some(p) then None else s[i])
  }

  /** The first `n` slots that owe a count on `p`. */
  ghost function Owing(s: seq<SlotVal>, n: nat, p: Ptr): set<nat>
    requires n <= |s|
  {
    set i: nat | i < n && s[i] == Some(p)
  }

  /** The slots of the first `n` nodes that do, each with its node. */
  ghost function OwingAll(ss: seq<seq<SlotVal>>, n: nat, p: Ptr): set<(nat, nat)>
    requires n <= |ss|
  {
    set k: nat, i: nat | k < n && i < |ss[k]| && ss[k][i] == Some(p) :: (k, i)
  }

  /** One more slot. */
  lemma OwingNext(s: seq<SlotVal>, n: nat, p: Ptr)
    requires n < |s|
    ensures |Owing(s, n + 1, p)| == |Owing(s, n, p)| + if s[n] == Some(p) then 1 else 0
  {
    assert Owing(s, n + 1, p) == if s[n] == Some(p) then Owing(s, n, p) + {n} else Owing(s, n, p);
  }

  /** One more node. */
  lemma OwingAllNext(ss: seq<seq<SlotVal>>, n: nat, p: Ptr)
    requires n < |ss|
    ensures |OwingAll(ss, n + 1, p)| == |OwingAll(ss, n, p)| + |Owing(ss[n], |ss[n]|, p)|
  {
    var here := Owing(ss[n], |ss[n]|, p);
    var pairs := set i | i in here :: (n, i);
    var f := map i | i in here :: (n, i);
    SameSize(here, pairs, f);
    assert OwingAll(ss, n + 1, p) == OwingAll(ss, n, p) + pairs;
    assert OwingAll(ss, n, p) !! pairs;
  }

  function NodeAt(list: seq<DebtNode>, i: nat): DebtNode? {
    if i < |list| then list[i] else null
  }

  ghost predicate Link(list: seq<DebtNode>, i: nat)
    requires i < |list|
  {
    list[i].next == NodeAt(list, i + 1)
  }

  /** Following `next` from `head` meets exactly the nodes of `list`. */
  ghost predicate Chain(head: DebtNode?, list: seq<DebtNode>) {
    head == NodeAt(list, 0) && forall i :: 0 <= i < |list| ==> Link(list, i)
  }

  ghost predicate Separate(list: seq<DebtNode>) {
    && (forall i :: 0 <= i < |list| ==> list[i].slots.Length == HELPING + 1)
    && (forall i, j :: 0 <= i < j < |list| ==> list[i].slots != list[j].slots)
  }

  /**
   The scan of one node. Other threads place and return debts meanwhile: `found[i]` is what they have left in slot `i`
   when its turn comes. A paying exchange always has a pre-paid count besides the writer's own.
   */
  method PayNode(node: DebtNode, found: seq<SlotVal>, p: Ptr, rc: Counts)
    requires node.slots.Length == HELPING + 1 == |found| && p in rc.cnt && rc.cnt[p] >= 2
    modifies node.slots, rc
    ensures node.slots[..] == Cleared(found, p)
    ensures rc.cnt == old(rc.cnt)[p := old(rc.cnt)[p] + |Owing(found, HELPING + 1, p)|]
  {
    ghost var base := rc.cnt;
    assert Owing(found, 0, p) == {};
    var i := 0;
    while i <= HELPING
      invariant i <= HELPING + 1
      invariant forall k :: 0 <= k < i ==> node.slots[k] == if found[k] == Some(p) then None else found[k]
      invariant rc.cnt == base[p := base[p] + |Owing(found, i, p)|] && rc.cnt[p] >= 2
    {
      OwingNext(found, i, p);
      node.slots[i] := found[i];
      if node.slots[i] == Some(p) {
        node.slots[i] := None;
        rc.cnt := rc.cnt[p := rc.cnt[p] + 1];
      }
      i := i + 1;
    }
  }

  /**
   `pay_all` over a list of any length: every slot that is found with a debt on `p` is paid, no other slot changes, and
   the count goes up by exactly the number of slots paid.
   */
  method PayAll(p: Ptr, head: DebtNode?, ghost list: seq<DebtNode>, found: seq<seq<SlotVal>>, rc: Counts)
    requires Chain(head, list) && Separate(list) && p in rc.cnt && rc.cnt[p] >= 1
    requires |found| == |list| && forall k :: 0 <= k < |found| ==> |found[k]| == HELPING + 1
    modifies rc, set n | n in list :: n.slots
    ensures forall k :: 0 <= k < |list| ==> list[k].slots[..] == Cleared(found[k], p)
    ensures rc.cnt == old(rc.cnt)[p := old(rc.cnt)[p] + |OwingAll(found, |found|, p)|]
  {
    ghost var base := rc.cnt;
    rc.cnt := rc.cnt[p := rc.cnt[p] + 1];
    var node, k := head, 0;
    assert OwingAll(found, 0, p) == {};
    while node != null
      invariant k <= |list| && node == NodeAt(list, k)
      invariant forall i :: 0 <= i < k ==> list[i].slots[..] == Cleared(found[i], p)
      invariant rc.cnt == base[p := base[p] + 1 + |OwingAll(found, k, p)|] && rc.cnt[p] >= 2
      decreases |list| - k
    {
      assert Link(list, k);
      OwingAllNext(found, k, p);
      PayNode(node, found[k], p, rc);
      node := node.next;
      k := k + 1;
    }
    rc.cnt := rc.cnt[p := rc.cnt[p] - 1];
  }
}
