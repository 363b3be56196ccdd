/**
 The control word as a machine word of `w` bits: two tag bits, and a generation counter that grows by
 four. Shows that the abstract control words of the protocol are faithful until the counter wraps,
 and exactly when it wraps.
 */
module Generations {
  import opened Machine
  import opened Protocol
  import opened Invariant

  const REPLACEMENT_TAG := 1
  const GEN_TAG := 2
  const TAGS := 4
  const IDLE := 0

  function Pow2(n: nat): (r: nat)
    ensures r >= 1
  {
    if n == 0 then 1 else 2 * Pow2(n - 1)
  }

  /** The number of words of `w` bits. */
  function Words(w: nat): nat {
    Pow2(w)
  }

  lemma Quarter(w: nat)
    requires w >= 2
    ensures Words(w) == TAGS * Pow2(w - 2)
  {
    assert Pow2(w) == 2 * Pow2(w - 1) && Pow2(w - 1) == 2 * Pow2(w - 2);
  }

  /** Addition on machine words of `w` bits. */
  function WrappingAdd(w: nat, x: nat, y: nat): nat
    requires x < Words(w) && y < Words(w)
  {
    if x + y < Words(w) then x + y else x + y - Words(w)
  }

  /** The counter after `k` transactions. */
  function Generation(w: nat, k: nat): (r: nat)
    requires w >= 3
    ensures r < Words(w) && r % TAGS == 0
  {
    Quarter(w);
    Quarter(w - 1);
    if k == 0 then 0 else WrappingAdd(w, Generation(w, k - 1), TAGS)
  }

  /** The control word of transaction number `k` since the counter was zero. */
  function GenWord(w: nat, k: nat): nat
    requires w >= 3
  {
    Generation(w, k) + GEN_TAG
  }

  /** The thread-local generation counter and the part of `get_debt` that advances it. */
  class Counter {
    const w: nat
    var generation: nat
    ghost var transactions: nat

    ghost predicate Valid()
      reads this
    {
      w >= 3 && generation == Generation(w, transactions)
    }

    constructor (bits: nat)
      requires bits >= 3
      ensures Valid() && w == bits && transactions == 0
    {
      w := bits;
      generation := 0;
      transactions := 0;
    }

    /** The discard signal is a counter that has come back to zero. */
    method Advance() returns (gen: nat, discard: bool)
      requires Valid()
      modifies this
      ensures Valid() && transactions == old(transactions) + 1
      ensures gen == GenWord(w, transactions) && gen < Words(w) && gen % TAGS == GEN_TAG
      ensures discard <==> Position(transactions, Pow2(w - 2)) == 0
    {
      Quarter(w);
      Quarter(w - 1);
      generation := WrappingAdd(w, generation, TAGS);
      transactions := transactions + 1;
      discard := generation == 0;
      gen := generation + GEN_TAG;
      Laps(w, transactions);
    }
  }

  /** The position of transaction `k` in a lap of `n` transactions. */
  function Position(k: nat, n: nat): (r: nat)
    requires n > 0
    ensures r < n
  {
    if k == 0 then 0 else if Position(k - 1, n) + 1 < n then Position(k - 1, n) + 1 else 0
  }

  lemma Multiples(d: int, n: int)
    requires n > 0
    ensures d >= 1 ==> d * n >= n
    ensures d <= -1 ==> d * n <= -n
  {
  }

  lemma RemainderIs(x: int, n: int, q: int, r: int)
    requires n > 0 && x == q * n + r && 0 <= r < n
    ensures x % n == r
  {
    var d := x / n - q;
    assert d * n == x / n * n - q * n;
    Multiples(d, n);
  }

  lemma {:induction false} PositionIsRemainder(k: nat, n: nat)
    requires n > 0
    ensures Position(k, n) == k % n
  {
    if k == 0 {
      RemainderIs(0, n, 0, 0);
    } else {
      PositionIsRemainder(k - 1, n);
      var q, r := (k - 1) / n, (k - 1) % n;
      assert (q + 1) * n == q * n + n;
      RemainderIs(k, n, if r + 1 < n then q else q + 1, if r + 1 < n then r + 1 else 0);
    }
  }

  lemma {:induction false} FirstLap(k: nat, n: nat)
    requires k < n
    ensures Position(k, n) == k
  {
    if k > 0 { FirstLap(k - 1, n); }
  }

  /** The counter goes round once in 2^(w-2) transactions. */
  lemma {:induction false} Laps(w: nat, k: nat)
    requires w >= 3
    ensures Generation(w, k) == TAGS * Position(k, Pow2(w - 2))
  {
    Quarter(w);
    if k > 0 { Laps(w, k - 1); }
  }

  /** Two transactions have the same control word exactly if whole laps lie between them. */
  lemma GenerationsDiffer(w: nat, j: nat, k: nat)
    requires w >= 3
    ensures GenWord(w, j) == GenWord(w, k) <==> j % Pow2(w - 2) == k % Pow2(w - 2)
  {
    Laps(w, j);
    Laps(w, k);
    PositionIsRemainder(j, Pow2(w - 2));
    PositionIsRemainder(k, Pow2(w - 2));
  }

  /** The discard signal comes first with transaction number 2^(w-2), one after `usize::MAX / 4` others. */
  lemma FirstDiscard(w: nat, k: nat)
    requires w >= 3 && 1 <= k <= Pow2(w - 2)
    ensures GenWord(w, k) == GEN_TAG <==> k == Pow2(w - 2)
    ensures GenWord(w, k) == GEN_TAG <==> k == (Words(w) - 1) / TAGS + 1
  {
    Quarter(w);
    Laps(w, k);
    FirstLap(k - 1, Pow2(w - 2));
  }

  // ---- Control words as machine words ----

  /** The machine word of a control word; `addr` gives the addresses of envelopes. */
  function Encode(w: nat, c: Control, addr: nat -> nat): nat
    requires w >= 3
  {
    match c
    case Idle => IDLE
    case Gen(g) => GenWord(w, g)
    case Repl(env, _, _, _) => addr(env) + REPLACEMENT_TAG
  }

  /** Envelopes are aligned to four bytes and do not share addresses. */
  ghost predicate Aligned(addr: nat -> nat, n: nat) {
    && (forall e :: 0 <= e < n ==> addr(e) % TAGS == 0)
    && (forall d, e :: 0 <= d < e < n ==> addr(d) != addr(e))
  }

  /** What tells control words apart in memory. */
  ghost function Visible(c: Control): Control {
    match c
    case Repl(env, _, _, _) => Repl(env, 0, 0, 0)
    case _ => c
  }

  ghost predicate InRange(w: nat, c: Control, n: nat)
    requires w >= 3
  {
    (c.Gen? ==> c.g < Pow2(w - 2)) && (c.Repl? ==> c.env < n)
  }

  /** The tag of a machine word says which kind of control word it is. */
  lemma TagsTell(w: nat, c: Control, addr: nat -> nat, n: nat)
    requires w >= 3 && Aligned(addr, n) && InRange(w, c, n)
    ensures var word := Encode(w, c, addr);
      && (c.Idle? <==> word == IDLE) && (c.Idle? <==> word % TAGS == 0)
      && (c.Repl? <==> word % TAGS == REPLACEMENT_TAG) && (c.Gen? <==> word % TAGS == GEN_TAG)
  {
  }

  /** Comparing machine words compares control words: the compare-exchanges of the protocol are exact. */
  lemma EncodingIsFaithful(w: nat, c: Control, d: Control, addr: nat -> nat, n: nat)
    requires w >= 3 && Aligned(addr, n) && InRange(w, c, n) && InRange(w, d, n)
    ensures Encode(w, c, addr) == Encode(w, d, addr) <==> Visible(c) == Visible(d)
  {
    TagsTell(w, c, addr, n);
    TagsTell(w, d, addr, n);
    if c.Gen? && d.Gen? {
      Laps(w, c.g);
      Laps(w, d.g);
      FirstLap(c.g, Pow2(w - 2));
      FirstLap(d.g, Pow2(w - 2));
    }
  }

  /** No node has used up its generations. */
  ghost predicate WrapFree(s: State, w: nat)
    requires w >= 3
  {
    forall n :: 0 <= n < |s.nodes| ==> s.nodes[n].gen < Pow2(w - 2)
  }

  /** Until a counter wraps, a helper's comparisons on machine words are those of the protocol. */
  lemma HelpersCompareExactly(run: seq<State>, steps: seq<Step>, i: nat, t: nat, w: nat, addr: nat -> nat)
    requires IsRun(run, steps) && i < |run| && w >= 3 && WrapFree(run[i], w) && Aligned(addr, |run[i].envs|)
    requires InHelp(run[i], t) && (run[i].threads[t].op.pc.h.HRecheck? || run[i].threads[t].op.pc.h.HCas?)
    ensures var c, g := run[i].nodes[Who(run[i], t)].control, run[i].threads[t].op.pc.h.g;
      Encode(w, c, addr) == Encode(w, Gen(g), addr) <==> c == Gen(g)
  {
    RunsInv(run, steps, i);
    var s := run[i];
    var n := Who(s, t);
    assert ThreadOk(s, t);
    assert ThreadOk(s, n);
    EncodingIsFaithful(w, s.nodes[n].control, Gen(s.threads[t].op.pc.h.g), addr, |s.envs|);
  }
}
