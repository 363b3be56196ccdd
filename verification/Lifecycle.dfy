/**
 The life of nodes: the prepend-only list, the USED / COOLDOWN / UNUSED states, and the reservations of
 writers that walk the list. One step per atomic operation; `check_cooldown` is three of them. Of the helping protocol
 there is as much as a helper relies on: a transaction puts the next generation of its thread into the control word.
 */
module Lifecycle {
  datatype NodePtr = Null | Ref(node: nat)

  datatype Use = Unused | Used | Cooldown

  /** History: `period` counts the cooldowns of the node so far, `owner` is the last thread to claim it. */
  datatype Node = Node(use: Use, writers: int, next: NodePtr, period: nat, owner: nat, control: Control)

  /** The control word: a generation while the owner has a transaction open. */
  datatype Control = Idle | Gen(g: nat)

  /** Who made a reservation: a writer on its way through the list, or an owner in `start_cooldown`. */
  datatype Who = Writer | Retiree(t: nat)

  /**
   A writer's reservation. History: `met` counts the ownerships of the node it has overlapped, `caught`
   says that after it had met one, the node was released on the strength of an earlier cooldown's zero.
   */
  datatype Reservation = Reservation(node: nat, live: bool, who: Who, met: nat, caught: bool)

  datatype Pc =
    | Free                                  // has no node
    | Look(n: nat)                          // about to load `in_use`
    | Count(n: nat, period: nat)            // saw a cooldown, about to load `active_writers`
    | Reset(n: nat, period: nat)            // saw zero, about to exchange COOLDOWN for UNUSED
    | Grab(n: nat)                         // about to exchange UNUSED for USED
    | Make                                  // at the end of the list, about to load the head for a new node
    | Prepend(n: nat, head: NodePtr)       // has a new node, about to exchange the head
    | Owner(n: nat)
    | Retire(n: nat, r: nat)                // in `start_cooldown`, reserved, about to swap `in_use`
    | Leave(n: nat, r: nat)                 // about to drop the reservation

  /** `gens` are the thread-local generations; `list` is what following `next` from `head` meets (history). */
  datatype State = State(
    nodes: seq<Node>, head: NodePtr, list: seq<nat>, threads: seq<Pc>, res: seq<Reservation>, gens: seq<nat>)

  datatype Step = Run(t: nat) | Open(t: nat) | Reserve(n: nat) | Drop(r: nat)

  ghost predicate Enabled(s: State, step: Step) {
    match step
    case Run(t) => t < |s.threads| && PcInRange(s, s.threads[t])
    case Open(t) =>
      && t < |s.threads| && t < |s.gens| && s.threads[t].Owner? && s.threads[t].n < |s.nodes|
      && s.nodes[s.threads[t].n].control.Idle?
    case Reserve(n) => n in s.list && n < |s.nodes|
    case Drop(r) => r < |s.res| && s.res[r].live && s.res[r].who.Writer? && s.res[r].node < |s.nodes|
  }

  predicate PcInRange(s: State, pc: Pc) {
    (pc.Free? || pc.Make? || pc.n < |s.nodes|) && (pc.Retire? || pc.Leave? ==> pc.r < |s.res|)
  }

  /** A live reservation on node `n` that has met an owner of it. */
  predicate Overlaps(r: Reservation, n: nat) {
    r.live && r.node == n && r.met >= 1
  }

  /** What a claim or a release of node `n` does to the history of the reservations. */
  function Claimed(res: seq<Reservation>, n: nat): seq<Reservation> {
    seq(|res|, i requires 0 <= i < |res| =>
      if res[i].live && res[i].node == n then res[i].(met := res[i].met + 1) else res[i])
  }

  function Released(res: seq<Reservation>, n: nat, stale: bool): seq<Reservation> {
    seq(|res|, i requires 0 <= i < |res| =>
      if stale && Overlaps(res[i], n) then res[i].(caught := true) else res[i])
  }

  function SetPc(s: State, t: nat, pc: Pc): State
    requires t < |s.threads|
  {
    s.(threads := s.threads[t := pc])
  }

  /** A thread that gets a node counts generations from zero, whatever the last owner of the node has used. */
  function FromZero(gens: seq<nat>, t: nat): seq<nat> {
    if t < |gens| then gens[t := 0] else gens
  }

  /** A new node, pointing to the head just loaded. */
  function NewNode(s: State, t: nat): State
    requires t < |s.threads|
  {
    SetPc(s, t, Prepend(|s.nodes|, s.head))
      .(nodes := s.nodes + [Node(Used, 0, s.head, 0, t, Idle)], gens := FromZero(s.gens, t))
  }

  function Walk(s: State, t: nat, at: NodePtr): State
    requires t < |s.threads|
  {
    SetPc(s, t, if at.Ref? then Look(at.node) else Make)
  }

  /** `Node::reserve_writer`. */
  function AddReservation(s: State, n: nat, who: Who): State
    requires n < |s.nodes|
  {
    s.(nodes := s.nodes[n := s.nodes[n].(writers := s.nodes[n].writers + 1)],
       res := s.res + [Reservation(n, true, who, if s.nodes[n].use.Used? then 1 else 0, false)])
  }

  function DropReservation(s: State, r: nat): State
    requires r < |s.res| && s.res[r].node < |s.nodes|
  {
    var n := s.res[r].node;
    s.(nodes := s.nodes[n := s.nodes[n].(writers := s.nodes[n].writers - 1)],
       res := s.res[r := s.res[r].(live := false)])
  }

  /** The part of `helping::Slots::get_debt` that publishes the next generation. */
  function OpenTransaction(s: State, t: nat): State
    requires t < |s.threads| && t < |s.gens| && s.threads[t].Owner? && s.threads[t].n < |s.nodes|
  {
    var n, g := s.threads[t].n, s.gens[t] + 1;
    s.(nodes := s.nodes[n := s.nodes[n].(control := Gen(g))], gens := s.gens[t := g])
  }

  ghost function RunThread(s: State, t: nat): State
    requires t < |s.threads| && PcInRange(s, s.threads[t])
  {
    match s.threads[t]
    case Free => Walk(s, t, s.head)
    case Look(n) => SetPc(s, t, if s.nodes[n].use.Cooldown? then Count(n, s.nodes[n].period) else Grab(n))
    case Count(n, p) => SetPc(s, t, if s.nodes[n].writers == 0 then Reset(n, p) else Grab(n))
    case Reset(n, p) =>
      if s.nodes[n].use.Cooldown? then
        SetPc(s, t, Grab(n)).(nodes := s.nodes[n := s.nodes[n].(use := Unused)],
                               res := Released(s.res, n, p != s.nodes[n].period))
      else SetPc(s, t, Grab(n))
    case Grab(n) =>
      if s.nodes[n].use.Unused? then
        SetPc(s, t, Owner(n)).(nodes := s.nodes[n := s.nodes[n].(use := Used, owner := t)],
                               res := Claimed(s.res, n), gens := FromZero(s.gens, t))
      else Walk(s, t, s.nodes[n].next)
    case Make => NewNode(s, t)
    case Prepend(n, head) =>
      if s.head == head then SetPc(s, t, Owner(n)).(head := Ref(n), list := [n] + s.list)
      else SetPc(s, t, Prepend(n, s.head)).(nodes := s.nodes[n := s.nodes[n].(next := s.head)])
    case Owner(n) =>
      if s.nodes[n].control.Gen? then s.(nodes := s.nodes[n := s.nodes[n].(control := Idle)])
      else SetPc(AddReservation(s, n, Retiree(t)), t, Retire(n, |s.res|))
    case Retire(n, r) =>
      SetPc(s, t, Leave(n, r)).(nodes := s.nodes[n := s.nodes[n].(use := Cooldown, period := s.nodes[n].period + 1)])
    case Leave(n, r) => if s.res[r].node < |s.nodes| then SetPc(DropReservation(s, r), t, Free) else s
  }

  ghost function Next(s: State, step: Step): State
    requires Enabled(s, step)
  {
    match step
    case Run(t) => RunThread(s, t)
    case Open(t) => OpenTransaction(s, t)
    case Reserve(n) => AddReservation(s, n, Writer)
    case Drop(r) => DropReservation(s, r)
  }

  ghost predicate Init(s: State) {
    && s.nodes == [] && s.head.Null? && s.list == [] && s.res == [] && |s.gens| == |s.threads|
    && forall t :: 0 <= t < |s.threads| ==> s.threads[t].Free?
  }

  /** Step `i` leads from state `i` to the next. */
  ghost predicate StepAt(run: seq<State>, steps: seq<Step>, i: nat)
    requires |run| == |steps| + 1 && i < |steps|
  {
    Enabled(run[i], steps[i]) && run[i + 1] == Next(run[i], steps[i])
  }

  ghost predicate IsRun(run: seq<State>, steps: seq<Step>) {
    && |run| == |steps| + 1 && Init(run[0])
    && forall i :: 0 <= i < |steps| ==> StepAt(run, steps, i)
  }

  // ---- The invariant ----

  ghost function LiveOn(res: seq<Reservation>, n: nat): set<nat> {
    set r: nat | r < |res| && res[r].live && res[r].node == n
  }

  /** `active_writers` is the number of live reservations. */
  ghost predicate WritersCounted(s: State) {
    forall n: nat :: n < |s.nodes| ==> s.nodes[n].writers == |LiveOn(s.res, n)|
  }

  /** Program points at which a thread has a node to itself. */
  predicate Owning(pc: Pc) {
    pc.Prepend? || pc.Owner? || pc.Retire?
  }

  ghost predicate Owns(s: State, t: nat, n: nat) {
    t < |s.threads| && Owning(s.threads[t]) && s.threads[t].n == n
  }

  /** A used node has an owner; a node outside of the list is with the thread that is linking it. */
  ghost predicate NodeOk(s: State, n: nat)
    requires n < |s.nodes|
  {
    var node := s.nodes[n];
    && (node.use.Used? ==> Owns(s, node.owner, n))
    && (node.control.Gen? ==>
      && node.use.Used? && Owns(s, node.owner, n) && s.threads[node.owner].Owner?
      && node.owner < |s.gens| && node.control.g == s.gens[node.owner] > 0)
    && (n !in s.list ==> node.use.Used? && Owns(s, node.owner, n) && s.threads[node.owner].Prepend?)
  }

  ghost predicate OwningOk(s: State, t: nat)
    requires t < |s.threads| && PcInRange(s, s.threads[t])
  {
    var pc := s.threads[t];
    && (Owning(pc) ==> s.nodes[pc.n].use.Used? && s.nodes[pc.n].owner == t)
    && (pc.Prepend? ==> pc.n !in s.list && s.nodes[pc.n].next == pc.head)
    && (Owning(pc) && !pc.Prepend? ==> pc.n in s.list)
    && (pc.Retire? || pc.Leave? ==> s.res[pc.r].live && s.res[pc.r].who == Retiree(t) && s.res[pc.r].node == pc.n)
  }

  /** A thread about to release a node in the cooldown it looked at: who is there came after that look. */
  ghost predicate LookedOk(s: State, t: nat)
    requires t < |s.threads| && PcInRange(s, s.threads[t])
  {
    var pc := s.threads[t];
    && (pc.Look? || pc.Count? || pc.Reset? || pc.Grab? ==> pc.n in s.list)
    && (pc.Count? || pc.Reset? ==> pc.period <= s.nodes[pc.n].period)
    && (pc.Reset? && pc.period == s.nodes[pc.n].period && s.nodes[pc.n].use.Cooldown? ==>
      forall r: nat :: r < |s.res| && s.res[r].live && s.res[r].node == pc.n ==> s.res[r].met == 0)
  }

  ghost predicate ThreadOk(s: State, t: nat)
    requires t < |s.threads|
  {
    PcInRange(s, s.threads[t]) && OwningOk(s, t) && LookedOk(s, t)
  }

  function NextIn(list: seq<nat>, i: nat): NodePtr {
    if i + 1 < |list| then Ref(list[i + 1]) else Null
  }

  ghost predicate Linked(s: State, i: nat)
    requires i < |s.list|
  {
    s.list[i] < |s.nodes| && s.nodes[s.list[i]].next == NextIn(s.list, i)
  }

  /** Following `next` from `head` meets exactly `list`, once each. */
  ghost predicate Chained(s: State) {
    && s.head == (if s.list == [] then Null else Ref(s.list[0]))
    && (forall i :: 0 <= i < |s.list| ==> Linked(s, i))
    && (forall i, j :: 0 <= i < j < |s.list| ==> s.list[i] != s.list[j])
  }

  ghost predicate ReservationOk(s: State, r: nat)
    requires r < |s.res|
  {
    && s.res[r].node < |s.nodes|
    && (s.res[r].live && !s.res[r].caught ==> s.res[r].met <= 1 && (s.nodes[s.res[r].node].use.Unused? ==>
      s.res[r].met == 0))
    && (s.res[r].live && s.nodes[s.res[r].node].use.Used? ==> s.res[r].met >= 1)
    && (s.res[r].met >= 2 ==> s.res[r].caught)
  }

  /** All of the invariant but the count of writers. */
  ghost predicate Rest(s: State) {
    && Chained(s) && |s.gens| == |s.threads|
    && (forall n: nat :: n < |s.nodes| ==> NodeOk(s, n))
    && (forall t: nat :: t < |s.threads| ==> ThreadOk(s, t))
    && (forall r: nat :: r < |s.res| ==> ReservationOk(s, r))
  }

  ghost predicate Inv(s: State) {
    WritersCounted(s) && Rest(s)
  }

  // ---- Counting writers ----

  lemma AddCounted(s: State, n: nat, who: Who)
    requires WritersCounted(s) && n < |s.nodes|
    ensures WritersCounted(AddReservation(s, n, who))
  {
    var s' := AddReservation(s, n, who);
    forall m: nat | m < |s'.nodes| ensures s'.nodes[m].writers == |LiveOn(s'.res, m)| {
      if m == n { assert LiveOn(s'.res, m) == LiveOn(s.res, m) + {|s.res|}; }
      else { assert LiveOn(s'.res, m) == LiveOn(s.res, m); }
    }
  }

  lemma DropCounted(s: State, r: nat)
    requires WritersCounted(s) && r < |s.res| && s.res[r].node < |s.nodes| && s.res[r].live
    ensures WritersCounted(DropReservation(s, r))
  {
    var s' := DropReservation(s, r);
    assert r in LiveOn(s.res, s.res[r].node);
    forall m: nat | m < |s'.nodes| ensures s'.nodes[m].writers == |LiveOn(s'.res, m)| {
      assert LiveOn(s'.res, m) == LiveOn(s.res, m) - {r};
    }
  }

  lemma SameCounted(s: State, s': State)
    requires WritersCounted(s) && |s.nodes| <= |s'.nodes| && |s'.res| == |s.res|
    requires forall r :: 0 <= r < |s.res| ==> s'.res[r].live == s.res[r].live && s'.res[r].node == s.res[r].node
    requires forall n :: 0 <= n < |s.nodes| ==> s'.nodes[n].writers == s.nodes[n].writers
    requires forall n :: |s.nodes| <= n < |s'.nodes| ==> s'.nodes[n].writers == 0
    requires forall r :: 0 <= r < |s.res| ==> s.res[r].node < |s.nodes|
    ensures WritersCounted(s')
  {
    forall m: nat | m < |s'.nodes| ensures s'.nodes[m].writers == |LiveOn(s'.res, m)| {
      assert LiveOn(s'.res, m) == LiveOn(s.res, m);
      if m >= |s.nodes| { assert LiveOn(s.res, m) == {}; }
    }
  }

  lemma StepWriters(s: State, step: Step)
    requires Inv(s) && Enabled(s, step)
    ensures WritersCounted(Next(s, step))
  {
    match step
    case Reserve(n) => AddCounted(s, n, Writer);
    case Drop(r) => DropCounted(s, r);
    case Open(t) =>
      forall r | 0 <= r < |s.res| ensures s.res[r].node < |s.nodes| { assert ReservationOk(s, r); }
      SameCounted(s, Next(s, step));
    case Run(t) =>
      match s.threads[t]
      case Owner(n) =>
        if s.nodes[n].control.Idle? { AddCounted(s, n, Retiree(t)); } else {
          forall r | 0 <= r < |s.res| ensures s.res[r].node < |s.nodes| { assert ReservationOk(s, r); }
          SameCounted(s, Next(s, step));
        }
      case Leave(n, r) => assert ThreadOk(s, t) && ReservationOk(s, r); DropCounted(s, r);
      case _ =>
        forall r | 0 <= r < |s.res| ensures s.res[r].node < |s.nodes| { assert ReservationOk(s, r); }
        SameCounted(s, Next(s, step));
  }

  // ---- Every step keeps the invariant ----

  /** Program points that neither own a node nor hold a reservation. */
  predicate Searching(pc: Pc) {
    pc.Free? || pc.Look? || pc.Count? || pc.Reset? || pc.Grab? || pc.Make?
  }

  lemma SearchKeeps(s: State, t: nat, pc: Pc)
    requires Rest(s) && t < |s.threads| && Searching(s.threads[t]) && Searching(pc) && PcInRange(s, pc)
    requires LookedOk(SetPc(s, t, pc), t)
    ensures Rest(SetPc(s, t, pc))
  {
    var s' := SetPc(s, t, pc);
    forall i | 0 <= i < |s'.list| ensures Linked(s', i) { assert Linked(s, i); }
    forall n: nat | n < |s'.nodes| ensures NodeOk(s', n) { assert NodeOk(s, n); }
    forall u: nat | u < |s'.threads| ensures ThreadOk(s', u) { assert ThreadOk(s, u); }
    forall r: nat | r < |s'.res| ensures ReservationOk(s', r) { assert ReservationOk(s, r); }
  }

  /** The release of a node: in the same cooldown as the zero read, nobody who has met its owner is there. */
  lemma ReleaseKeeps(s: State, t: nat)
    requires Rest(s) && Enabled(s, Run(t)) && s.threads[t].Reset? && s.nodes[s.threads[t].n].use.Cooldown?
    ensures Rest(RunThread(s, t))
  {
    var s' := RunThread(s, t);
    assert ThreadOk(s, t);
    forall i | 0 <= i < |s'.list| ensures Linked(s', i) { assert Linked(s, i); }
    forall n: nat | n < |s'.nodes| ensures NodeOk(s', n) { assert NodeOk(s, n); }
    forall u: nat | u < |s'.threads| ensures ThreadOk(s', u) { assert ThreadOk(s, u); }
    forall r: nat | r < |s'.res| ensures ReservationOk(s', r) { assert ReservationOk(s, r); }
  }

  lemma GrabKeeps(s: State, t: nat)
    requires Rest(s) && Enabled(s, Run(t)) && s.threads[t].Grab? && s.nodes[s.threads[t].n].use.Unused?
    ensures Rest(RunThread(s, t))
  {
    var s' := RunThread(s, t);
    assert ThreadOk(s, t);
    forall i | 0 <= i < |s'.list| ensures Linked(s', i) { assert Linked(s, i); }
    forall n: nat | n < |s'.nodes| ensures NodeOk(s', n) { assert NodeOk(s, n); }
    forall u: nat | u < |s'.threads| ensures ThreadOk(s', u) { assert ThreadOk(s, u); }
    forall r: nat | r < |s'.res| ensures ReservationOk(s', r) { assert ReservationOk(s, r); }
  }

  lemma NewNodeKeeps(s: State, t: nat)
    requires Rest(s) && t < |s.threads| && Searching(s.threads[t])
    ensures Rest(NewNode(s, t))
  {
    var s' := NewNode(s, t);
    assert ThreadOk(s, t);
    forall i | 0 <= i < |s.list| ensures s.list[i] < |s.nodes| { assert Linked(s, i); }
    forall i | 0 <= i < |s'.list| ensures Linked(s', i) { assert Linked(s, i); }
    forall n: nat | n < |s'.nodes| ensures NodeOk(s', n) { if n < |s.nodes| { assert NodeOk(s, n); } }
    forall u: nat | u < |s'.threads| ensures ThreadOk(s', u) { assert ThreadOk(s, u); }
    forall r: nat | r < |s'.res| ensures ReservationOk(s', r) { assert ReservationOk(s, r); }
  }

  lemma PrependKeeps(s: State, t: nat)
    requires Rest(s) && Enabled(s, Run(t)) && s.threads[t].Prepend? && s.threads[t].head == s.head
    ensures Rest(RunThread(s, t))
  {
    var s' := RunThread(s, t);
    assert ThreadOk(s, t);
    forall i | 0 <= i < |s'.list| ensures Linked(s', i) { if i > 0 { assert Linked(s, i - 1); } }
    forall n: nat | n < |s'.nodes| ensures NodeOk(s', n) { assert NodeOk(s, n); }
    forall u: nat | u < |s'.threads| ensures ThreadOk(s', u) { assert ThreadOk(s, u); }
    forall r: nat | r < |s'.res| ensures ReservationOk(s', r) { assert ReservationOk(s, r); }
  }

  lemma RetryKeeps(s: State, t: nat)
    requires Rest(s) && Enabled(s, Run(t)) && s.threads[t].Prepend? && s.threads[t].head != s.head
    ensures Rest(RunThread(s, t))
  {
    var s' := RunThread(s, t);
    assert ThreadOk(s, t);
    forall i | 0 <= i < |s'.list| ensures Linked(s', i) { assert Linked(s, i); }
    forall n: nat | n < |s'.nodes| ensures NodeOk(s', n) { assert NodeOk(s, n); }
    forall u: nat | u < |s'.threads| ensures ThreadOk(s', u) { assert ThreadOk(s, u); }
    forall r: nat | r < |s'.res| ensures ReservationOk(s', r) { assert ReservationOk(s, r); }
  }

  lemma OwnerKeeps(s: State, t: nat)
    requires Rest(s) && Enabled(s, Run(t)) && s.threads[t].Owner?
    ensures Rest(RunThread(s, t))
  {
    var s' := RunThread(s, t);
    assert ThreadOk(s, t);
    forall i | 0 <= i < |s'.list| ensures Linked(s', i) { assert Linked(s, i); }
    forall n: nat | n < |s'.nodes| ensures NodeOk(s', n) { assert NodeOk(s, n); }
    forall u: nat | u < |s'.threads| ensures ThreadOk(s', u) { assert ThreadOk(s, u); }
    forall r: nat | r < |s'.res| ensures ReservationOk(s', r) { if r < |s.res| { assert ReservationOk(s, r); } }
  }

  lemma RetireKeeps(s: State, t: nat)
    requires Rest(s) && Enabled(s, Run(t)) && s.threads[t].Retire?
    ensures Rest(RunThread(s, t))
  {
    var s' := RunThread(s, t);
    assert ThreadOk(s, t);
    forall i | 0 <= i < |s'.list| ensures Linked(s', i) { assert Linked(s, i); }
    forall n: nat | n < |s'.nodes| ensures NodeOk(s', n) { assert NodeOk(s, n); }
    forall u: nat | u < |s'.threads| ensures ThreadOk(s', u) { assert ThreadOk(s, u); }
    forall r: nat | r < |s'.res| ensures ReservationOk(s', r) { assert ReservationOk(s, r); }
  }

  lemma LeaveKeeps(s: State, t: nat)
    requires Rest(s) && Enabled(s, Run(t)) && s.threads[t].Leave?
    ensures Rest(RunThread(s, t))
  {
    var s' := RunThread(s, t);
    assert ThreadOk(s, t);
    assert ReservationOk(s, s.threads[t].r);
    forall i | 0 <= i < |s'.list| ensures Linked(s', i) { assert Linked(s, i); }
    forall n: nat | n < |s'.nodes| ensures NodeOk(s', n) { assert NodeOk(s, n); }
    forall u: nat | u < |s'.threads| ensures ThreadOk(s', u) { assert ThreadOk(s, u); }
    forall r: nat | r < |s'.res| ensures ReservationOk(s', r) { assert ReservationOk(s, r); }
  }

  lemma ReserveKeeps(s: State, n: nat)
    requires Rest(s) && Enabled(s, Reserve(n))
    ensures Rest(Next(s, Reserve(n)))
  {
    var s' := Next(s, Reserve(n));
    forall i | 0 <= i < |s'.list| ensures Linked(s', i) { assert Linked(s, i); }
    forall m: nat | m < |s'.nodes| ensures NodeOk(s', m) { assert NodeOk(s, m); }
    forall u: nat | u < |s'.threads| ensures ThreadOk(s', u) { assert ThreadOk(s, u); }
    forall r: nat | r < |s'.res| ensures ReservationOk(s', r) { if r < |s.res| { assert ReservationOk(s, r); } }
  }

  lemma OpenKeeps(s: State, t: nat)
    requires Rest(s) && Enabled(s, Open(t))
    ensures Rest(Next(s, Open(t)))
  {
    var s' := Next(s, Open(t));
    assert ThreadOk(s, t);
    forall i | 0 <= i < |s'.list| ensures Linked(s', i) { assert Linked(s, i); }
    forall n: nat | n < |s'.nodes| ensures NodeOk(s', n) { assert NodeOk(s, n); }
    forall u: nat | u < |s'.threads| ensures ThreadOk(s', u) { assert ThreadOk(s, u); }
    forall r: nat | r < |s'.res| ensures ReservationOk(s', r) { assert ReservationOk(s, r); }
  }

  lemma DropKeeps(s: State, r: nat)
    requires Rest(s) && Enabled(s, Drop(r))
    ensures Rest(Next(s, Drop(r)))
  {
    var s' := Next(s, Drop(r));
    forall i | 0 <= i < |s'.list| ensures Linked(s', i) { assert Linked(s, i); }
    forall n: nat | n < |s'.nodes| ensures NodeOk(s', n) { assert NodeOk(s, n); }
    forall u: nat | u < |s'.threads| ensures ThreadOk(s', u) { assert ThreadOk(s, u); }
    forall q: nat | q < |s'.res| ensures ReservationOk(s', q) { assert ReservationOk(s, q); }
  }

  /** A thread that walks the list comes to nodes of the list only. */
  lemma WalkKeeps(s: State, t: nat, at: NodePtr)
    requires Rest(s) && t < |s.threads| && Searching(s.threads[t]) && (at.Ref? ==> at.node in s.list)
    ensures Rest(Walk(s, t, at))
  {
    forall i | 0 <= i < |s.list| ensures s.list[i] < |s.nodes| { assert Linked(s, i); }
    SearchKeeps(s, t, if at.Ref? then Look(at.node) else Make);
  }

  lemma LookKeeps(s: State, t: nat)
    requires Inv(s) && Enabled(s, Run(t)) && (s.threads[t].Look? || s.threads[t].Count?)
    ensures Rest(RunThread(s, t))
  {
    var s', n := RunThread(s, t), s.threads[t].n;
    assert ThreadOk(s, t);
    if s.nodes[n].writers == 0 {
      assert LiveOn(s.res, n) == {};
      forall r: nat | r < |s.res| && s.res[r].live ensures s.res[r].node != n { assert r !in LiveOn(s.res, n); }
    }
    SearchKeeps(s, t, s'.threads[t]);
  }

  lemma GiveUpKeeps(s: State, t: nat)
    requires Rest(s) && Enabled(s, Run(t)) && s.threads[t].Grab? && !s.nodes[s.threads[t].n].use.Unused?
    ensures Rest(RunThread(s, t))
  {
    var n := s.threads[t].n;
    assert ThreadOk(s, t);
    var i :| 0 <= i < |s.list| && s.list[i] == n;
    assert Linked(s, i);
    WalkKeeps(s, t, s.nodes[n].next);
  }

  lemma RunKeeps(s: State, t: nat)
    requires Inv(s) && Enabled(s, Run(t))
    ensures Rest(RunThread(s, t))
  {
    match s.threads[t]
    case Free => WalkKeeps(s, t, s.head);
    case Look(_) => LookKeeps(s, t);
    case Count(_, _) => LookKeeps(s, t);
    case Reset(n, _) =>
      assert ThreadOk(s, t);
      if s.nodes[n].use.Cooldown? { ReleaseKeeps(s, t); } else { SearchKeeps(s, t, Grab(n)); }
    case Grab(n) => if s.nodes[n].use.Unused? { GrabKeeps(s, t); } else { GiveUpKeeps(s, t); }
    case Make => NewNodeKeeps(s, t);
    case Prepend(_, head) => if s.head == head { PrependKeeps(s, t); } else { RetryKeeps(s, t); }
    case Owner(_) => OwnerKeeps(s, t);
    case Retire(_, _) => RetireKeeps(s, t);
    case Leave(_, _) => LeaveKeeps(s, t);
  }

  lemma StepInv(s: State, step: Step)
    requires Inv(s) && Enabled(s, step)
    ensures Inv(Next(s, step))
  {
    StepWriters(s, step);
    match step
    case Run(t) => RunKeeps(s, t);
    case Open(t) => OpenKeeps(s, t);
    case Reserve(n) => ReserveKeeps(s, n);
    case Drop(r) => DropKeeps(s, r);
  }

  lemma {:induction false} RunsInv(run: seq<State>, steps: seq<Step>, k: nat)
    requires IsRun(run, steps) && k < |run|
    ensures Inv(run[k])
  {
    if k > 0 {
      RunsInv(run, steps, k - 1);
      assert StepAt(run, steps, k - 1);
      StepInv(run[k - 1], steps[k - 1]);
    }
  }

  // ---- What holds in every run ----

  /**
   In every state: `active_writers` is the number of live reservations; a node is used exactly when a thread owns it,
   and that is one thread; so a thread that starts a cooldown finds its node USED, as it asserts.
   */
  lemma OwnershipIsExclusive(run: seq<State>, steps: seq<Step>, k: nat, n: nat)
    requires IsRun(run, steps) && k < |run| && n < |run[k].nodes|
    ensures run[k].nodes[n].writers == |LiveOn(run[k].res, n)|
    ensures run[k].nodes[n].use.Used? <==> exists t: nat :: Owns(run[k], t, n)
    ensures forall t: nat, u: nat :: Owns(run[k], t, n) && Owns(run[k], u, n) ==> t == u
  {
    var s := run[k];
    RunsInv(run, steps, k);
    assert NodeOk(s, n);
    forall t: nat | Owns(s, t, n) ensures s.nodes[n].use.Used? && s.nodes[n].owner == t { assert ThreadOk(s, t); }
  }

  /** No step of a thread is ever held up, and no thread follows a pointer out of the list. */
  lemma ThreadsNeverBlock(run: seq<State>, steps: seq<Step>, k: nat, t: nat)
    requires IsRun(run, steps) && k < |run| && t < |run[k].threads|
    ensures Enabled(run[k], Run(t))
  {
    RunsInv(run, steps, k);
    assert ThreadOk(run[k], t);
  }

  /** A walk along `next` that starts at `at` and meets exactly `met`. */
  ghost predicate Walks(nodes: seq<Node>, at: NodePtr, met: seq<nat>)
    decreases |met|
  {
    if met == [] then at.Null?
    else at == Ref(met[0]) && met[0] < |nodes| && Walks(nodes, nodes[met[0]].next, met[1..])
  }

  lemma {:induction false} ChainWalks(s: State, i: nat)
    requires Chained(s) && i <= |s.list|
    ensures Walks(s.nodes, if i < |s.list| then Ref(s.list[i]) else Null, s.list[i..])
    decreases |s.list| - i
  {
    if i < |s.list| {
      ChainWalks(s, i + 1);
      assert Linked(s, i);
      assert s.list[i..][1..] == s.list[i + 1..];
    }
  }

  /** `list` is the tail of `later`. */
  ghost predicate IsTail(list: seq<nat>, later: seq<nat>) {
    |list| <= |later| && later[|later| - |list|..] == list
  }

  lemma StepList(s: State, step: Step)
    requires Enabled(s, step)
    ensures IsTail(s.list, Next(s, step).list)
  {
    var now := Next(s, step).list;
    assert now == s.list || (|now| == |s.list| + 1 && now[1..] == s.list);
  }

  lemma {:induction false} ListGrows(run: seq<State>, steps: seq<Step>, i: nat, j: nat)
    requires IsRun(run, steps) && i <= j < |run|
    ensures IsTail(run[i].list, run[j].list)
  {
    if i < j {
      ListGrows(run, steps, i, j - 1);
      assert StepAt(run, steps, j - 1);
      StepList(run[j - 1], steps[j - 1]);
      TailOfTail(run[i].list, run[j - 1].list, run[j].list);
    }
  }

  lemma TailOfTail(a: seq<nat>, b: seq<nat>, c: seq<nat>)
    requires IsTail(a, b) && IsTail(b, c)
    ensures IsTail(a, c)
  {
    assert c[|c| - |a|..] == c[|c| - |b|..][|b| - |a|..];
  }

  /** A thread is about to put the node into the list. */
  ghost predicate BeingLinked(s: State, n: nat)
    requires n < |s.nodes|
  {
    exists t: nat :: t < |s.threads| && s.threads[t] == Prepend(n, s.nodes[n].next)
  }

  /**
   Whoever loads the head in state `i` and follows `next`, however much later, meets every node that had been claimed
   and linked by then, each once, and comes to the end.
   */
  lemma TraversalMeetsEveryNode(run: seq<State>, steps: seq<Step>, i: nat, j: nat)
    requires IsRun(run, steps) && i <= j < |run|
    ensures Walks(run[j].nodes, run[i].head, run[i].list)
    ensures forall n: nat :: n < |run[i].nodes| && !BeingLinked(run[i], n) ==> n in run[i].list
    ensures forall a, b :: 0 <= a < b < |run[i].list| ==> run[i].list[a] != run[i].list[b]
  {
    RunsInv(run, steps, i);
    RunsInv(run, steps, j);
    ListGrows(run, steps, i, j);
    var d := |run[j].list| - |run[i].list|;
    ChainWalks(run[j], d);
    forall n: nat | n < |run[i].nodes| && n !in run[i].list
      ensures BeingLinked(run[i], n)
    {
      assert NodeOk(run[i], n);
      assert ThreadOk(run[i], run[i].nodes[n].owner);
    }
  }

  // ---- Node::get ----

  /** On the way through the list, or at its end. */
  predicate InSearch(pc: Pc) {
    pc.Look? || pc.Count? || pc.Reset? || pc.Grab? || pc.Make?
  }

  /** Between the states `i` and `j`, thread `t` has tried to take node `n` and found it not unused. */
  ghost predicate Passed(run: seq<State>, steps: seq<Step>, i: nat, j: nat, t: nat, n: nat) {
    exists m: nat :: i < m < j && FoundInUse(run, steps, m, t, n)
  }

  ghost predicate FoundInUse(run: seq<State>, steps: seq<Step>, m: nat, t: nat, n: nat) {
    && m < |steps| && m < |run| && steps[m] == Run(t) && t < |run[m].threads| && run[m].threads[t] == Grab(n)
    && n < |run[m].nodes| && !run[m].nodes[n].use.Unused?
  }

  /** The search that began in state `i` has come to place `p` of the list, and has passed all nodes before it. */
  ghost predicate SearchAt(run: seq<State>, steps: seq<Step>, i: nat, j: nat, t: nat, p: nat) {
    && i < |run| && j < |run| && t < |run[j].threads| && p <= |run[i].list|
    && (if p < |run[i].list| then
          InSearch(run[j].threads[t]) && !run[j].threads[t].Make? && run[j].threads[t].n == run[i].list[p]
        else run[j].threads[t].Make?)
    && forall q: nat :: q < p ==> Passed(run, steps, i, j, t, run[i].list[q])
  }

  /** The node behind place `p` of an earlier list is still the same. */
  lemma NextStays(run: seq<State>, steps: seq<Step>, i: nat, j: nat, p: nat)
    requires IsRun(run, steps) && i <= j < |run| && p < |run[i].list|
    ensures run[i].list[p] < |run[j].nodes| && run[j].nodes[run[i].list[p]].next == NextIn(run[i].list, p)
  {
    ListGrows(run, steps, i, j);
    RunsInv(run, steps, j);
    var d := |run[j].list| - |run[i].list|;
    assert run[i].list[p] == run[j].list[d + p] && Linked(run[j], d + p);
    if p + 1 < |run[i].list| { assert run[i].list[p + 1] == run[j].list[d + p + 1]; }
  }

  lemma PassedLater(run: seq<State>, steps: seq<Step>, i: nat, j: nat, k: nat, t: nat, n: nat)
    requires Passed(run, steps, i, j, t, n) && j <= k
    ensures Passed(run, steps, i, k, t, n)
  {
    var m: nat :| i < m < j && FoundInUse(run, steps, m, t, n);
  }

  /** One step of thread `t` in its search. */
  lemma SearchStep(s: State, t: nat)
    requires Enabled(s, Run(t)) && InSearch(s.threads[t]) && t < |RunThread(s, t).threads|
    ensures var pc, pc' := s.threads[t], RunThread(s, t).threads[t];
      && (pc.Make? ==> pc'.Prepend?)
      && (pc.Grab? && !s.nodes[pc.n].use.Unused? ==>
        pc' == if s.nodes[pc.n].next.Ref? then Look(s.nodes[pc.n].next.node) else Make)
      && (pc.Grab? && s.nodes[pc.n].use.Unused? ==> pc' == Owner(pc.n))
      && (!pc.Make? && !pc.Grab? ==> InSearch(pc') && !pc'.Make? && pc'.n == pc.n)
  {
  }

  lemma NextSearch(run: seq<State>, steps: seq<Step>, i: nat, j: nat, t: nat, p: nat) returns (p': nat)
    requires IsRun(run, steps) && i < j < |steps| && SearchAt(run, steps, i, j, t, p)
    requires t < |run[j + 1].threads| && InSearch(run[j + 1].threads[t])
    ensures SearchAt(run, steps, i, j + 1, t, p')
  {
    assert StepAt(run, steps, j);
    p' := p;
    if steps[j] == Run(t) {
      SearchStep(run[j], t);
      if run[j].threads[t].Grab? {
        NextStays(run, steps, i, j, p);
        assert FoundInUse(run, steps, j, t, run[i].list[p]);
        p' := p + 1;
      }
    }
    forall q: nat | q < p' ensures Passed(run, steps, i, j + 1, t, run[i].list[q]) {
      if q < p { PassedLater(run, steps, i, j, j + 1, t, run[i].list[q]); }
    }
  }

  lemma {:induction false} SearchSoFar(run: seq<State>, steps: seq<Step>, i: nat, j: nat, t: nat) returns (p: nat)
    requires IsRun(run, steps) && i < j < |run| && steps[i] == Run(t) && t < |run[i].threads| && run[i].threads[t].Free?
    requires forall m :: i < m <= j ==> t < |run[m].threads| && InSearch(run[m].threads[t])
    ensures SearchAt(run, steps, i, j, t, p)
    decreases j
  {
    if j == i + 1 {
      RunsInv(run, steps, i);
      assert StepAt(run, steps, i);
      p := 0;
    } else {
      p := SearchSoFar(run, steps, i, j - 1, t);
      p := NextSearch(run, steps, i, j - 1, t, p);
    }
  }

  /** `Node::get` makes a new node only if it has found every node of the list in use, or in a cooldown. */
  lemma NewOnlyIfNoneUnused(run: seq<State>, steps: seq<Step>, i: nat, k: nat, t: nat)
    requires IsRun(run, steps) && i < k < |steps| && steps[i] == Run(t) && steps[k] == Run(t)
    requires t < |run[i].threads| && run[i].threads[t].Free?
    requires forall m :: i < m <= k ==> t < |run[m].threads| && InSearch(run[m].threads[t])
    requires t < |run[k + 1].threads| && run[k + 1].threads[t].Prepend?
    ensures forall n :: n in run[i].list ==> Passed(run, steps, i, k, t, n)
  {
    var p := SearchSoFar(run, steps, i, k, t);
    assert StepAt(run, steps, k);
    SearchStep(run[k], t);
    assert p == |run[i].list|;
    forall n | n in run[i].list ensures Passed(run, steps, i, k, t, n) {
      var q: nat :| q < |run[i].list| && run[i].list[q] == n;
    }
  }

  /** A node in a cooldown, with no writer there, is taken by the search that comes to it, if nobody interferes. */
  lemma IdleNodeIsTaken(run: seq<State>, steps: seq<Step>, i: nat, t: nat, n: nat)
    requires IsRun(run, steps) && i + 4 <= |steps| && forall j :: i <= j < i + 4 ==> steps[j] == Run(t)
    requires t < |run[i].threads| && run[i].threads[t] == Look(n) && n < |run[i].nodes|
    requires run[i].nodes[n].use.Cooldown? && run[i].nodes[n].writers == 0
    ensures t < |run[i + 4].threads| && run[i + 4].threads[t] == Owner(n)
    ensures n < |run[i + 4].nodes| && run[i + 4].nodes[n].use.Used? && run[i + 4].nodes[n].owner == t
  {
    assert StepAt(run, steps, i);
    assert StepAt(run, steps, i + 1);
    assert StepAt(run, steps, i + 2);
    assert StepAt(run, steps, i + 3);
  }

  // ---- A reservation and the ownerships it spans ----

  /** The step claims node `n`, unused so far. */
  ghost predicate Claims(s: State, step: Step, n: nat) {
    step.Run? && step.t < |s.threads| && n < |s.nodes| && s.threads[step.t] == Grab(n) && s.nodes[n].use.Unused?
  }

  /** The step claims the node under the live reservation `r`. */
  ghost predicate Hits(s: State, step: Step, r: nat) {
    r < |s.res| && s.res[r].live && Claims(s, step, s.res[r].node)
  }

  /** The step releases node `n` although its zero was read in an earlier cooldown than the present one. */
  ghost predicate StaleRelease(s: State, step: Step, n: nat) {
    && step.Run? && step.t < |s.threads| && n < |s.nodes| && s.threads[step.t].Reset? && s.threads[step.t].n == n
    && s.nodes[n].use.Cooldown? && s.threads[step.t].period != s.nodes[n].period
  }

  /** The step is a stale release under the live reservation `r`, which has met an owner. */
  ghost predicate Catches(s: State, step: Step, r: nat) {
    r < |s.res| && StaleRelease(s, step, s.res[r].node) && Overlaps(s.res[r], s.res[r].node)
  }

  lemma StepReservation(s: State, step: Step, r: nat)
    requires Inv(s) && Enabled(s, step) && r < |s.res|
    ensures r < |Next(s, step).res| && Next(s, step).res[r].node == s.res[r].node
    ensures Next(s, step).res[r].live ==> s.res[r].live
    ensures Next(s, step).res[r].met == s.res[r].met + (if Hits(s, step, r) then 1 else 0)
    ensures Next(s, step).res[r].caught <==> s.res[r].caught || Catches(s, step, r)
  {
    assert ReservationOk(s, r);
  }

  /** A node stays with its owner until the next claim, and is not used in between two owners. */
  lemma StepOwner(s: State, step: Step, n: nat)
    requires Inv(s) && Enabled(s, step) && n < |s.nodes| && !Claims(s, step, n)
    ensures n < |Next(s, step).nodes| && Next(s, step).nodes[n].owner == s.nodes[n].owner
    ensures Next(s, step).nodes[n].use.Used? ==>
      s.nodes[n].use.Used? && Next(s, step).nodes[n].period == s.nodes[n].period
  {
    if step.Run? { assert ThreadOk(s, step.t); }
  }

  lemma {:induction false} ReservationOverTime(run: seq<State>, steps: seq<Step>, i: nat, j: nat, r: nat)
    requires IsRun(run, steps) && i <= j < |run| && r < |run[i].res|
    ensures r < |run[j].res| && run[j].res[r].node == run[i].res[r].node
    ensures run[j].res[r].live ==> run[i].res[r].live
    ensures run[i].res[r].met <= run[j].res[r].met
    ensures run[i].res[r].caught ==> run[j].res[r].caught
  {
    if i < j {
      ReservationOverTime(run, steps, i, j - 1, r);
      RunsInv(run, steps, j - 1);
      assert StepAt(run, steps, j - 1);
      StepReservation(run[j - 1], steps[j - 1], r);
    }
  }

  lemma {:induction false} SameOwner(run: seq<State>, steps: seq<Step>, i: nat, j: nat, r: nat)
    requires IsRun(run, steps) && i <= j < |run| && r < |run[i].res| && r < |run[j].res|
    requires run[j].res[r].live && run[i].res[r].met == run[j].res[r].met
    ensures run[i].res[r].node < |run[i].nodes| && run[i].res[r].node < |run[j].nodes|
    ensures run[j].nodes[run[i].res[r].node].owner == run[i].nodes[run[i].res[r].node].owner
    ensures run[j].nodes[run[i].res[r].node].use.Used? ==>
      run[j].nodes[run[i].res[r].node].period == run[i].nodes[run[i].res[r].node].period
  {
    RunsInv(run, steps, i);
    assert ReservationOk(run[i], r);
    if i < j {
      ReservationOverTime(run, steps, i, j - 1, r);
      RunsInv(run, steps, j - 1);
      assert StepAt(run, steps, j - 1);
      StepReservation(run[j - 1], steps[j - 1], r);
      SameOwner(run, steps, i, j - 1, r);
      StepOwner(run[j - 1], steps[j - 1], run[i].res[r].node);
    }
  }

  /**
   A reservation spans one ownership: whenever the node under it is used, it is used by the same thread, which has not
   let go of it in the meantime; unless a stale release caught the reservation.
   */
  lemma ReservationSpansOneOwnership(run: seq<State>, steps: seq<Step>, i: nat, j: nat, r: nat)
    requires IsRun(run, steps) && i <= j < |run| && r < |run[i].res| && r < |run[j].res| && run[j].res[r].live
    requires run[i].res[r].node < |run[i].nodes| && run[i].nodes[run[i].res[r].node].use.Used?
    requires run[i].res[r].node < |run[j].nodes| && run[j].nodes[run[i].res[r].node].use.Used?
    requires forall k :: 0 <= k < j ==> !Catches(run[k], steps[k], r)
    ensures run[j].nodes[run[i].res[r].node].owner == run[i].nodes[run[i].res[r].node].owner
    ensures run[j].nodes[run[i].res[r].node].period == run[i].nodes[run[i].res[r].node].period
  {
    ReservationOverTime(run, steps, i, j, r);
    RunsInv(run, steps, i);
    RunsInv(run, steps, j);
    assert ReservationOk(run[i], r) && ReservationOk(run[j], r);
    if run[j].res[r].caught { var k := CaughtWhen(run, steps, j, r); }
    SameOwner(run, steps, i, j, r);
  }

  // ---- A helper and the transaction it saw ----

  /** The owner of a node that stays with it: generations grow, and an open transaction was open or is younger. */
  lemma StepGeneration(s: State, step: Step, n: nat)
    requires Inv(s) && Enabled(s, step) && n < |s.nodes| && !Claims(s, step, n)
    requires n < |Next(s, step).nodes| && Next(s, step).nodes[n].use.Used?
    ensures var s', t := Next(s, step), s.nodes[n].owner;
      && t < |s.gens| == |s'.gens| && s.gens[t] <= s'.gens[t]
      && (s'.nodes[n].control.Gen? ==> s'.nodes[n].control.g == s'.gens[t])
      && (s'.nodes[n].control.Gen? ==> s'.nodes[n].control == s.nodes[n].control || s.gens[t] < s'.gens[t])
  {
    StepInv(s, step);
    StepOwner(s, step, n);
    assert NodeOk(s, n) && NodeOk(Next(s, step), n);
    assert ThreadOk(s, s.nodes[n].owner);
    if step.Run? || step.Open? { assert ThreadOk(s, step.t); }
  }

  /** No claim of the node comes between two states of a reservation with the same number of ownerships. */
  lemma NoClaim(run: seq<State>, steps: seq<Step>, i: nat, j: nat, r: nat, k: nat)
    requires IsRun(run, steps) && i <= k < j < |run| && r < |run[i].res| && r < |run[j].res|
    requires run[j].res[r].live && run[i].res[r].met == run[j].res[r].met
    ensures r < |run[k].res| && run[k].res[r].node == run[i].res[r].node && run[k].res[r].live
    ensures run[k].res[r].met == run[i].res[r].met && !Claims(run[k], steps[k], run[i].res[r].node)
  {
    ReservationOverTime(run, steps, i, k, r);
    ReservationOverTime(run, steps, k, j, r);
    RunsInv(run, steps, k);
    assert StepAt(run, steps, k);
    StepReservation(run[k], steps[k], r);
    ReservationOverTime(run, steps, k + 1, j, r);
  }

  /** Between two states in which the node of a reservation is used it stays used, and its owner's generations grow. */
  lemma {:induction false} UsedBetween(run: seq<State>, steps: seq<Step>, i: nat, j: nat, r: nat, n: nat)
    requires IsRun(run, steps) && i <= j < |run| && r < |run[i].res| && r < |run[j].res| && n == run[i].res[r].node
    requires run[j].res[r].live && run[i].res[r].met == run[j].res[r].met
    requires n < |run[i].nodes| && n < |run[j].nodes| && run[j].nodes[n].use.Used?
    ensures run[i].nodes[n].use.Used? && run[j].nodes[n].owner == run[i].nodes[n].owner
    ensures var t := run[i].nodes[n].owner; t < |run[i].gens| && t < |run[j].gens| && run[i].gens[t] <= run[j].gens[t]
    decreases j - i
  {
    RunsInv(run, steps, i);
    assert NodeOk(run[i], n);
    if i < j {
      NoClaim(run, steps, i, j, r, i);
      assert StepAt(run, steps, i);
      StepOwner(run[i], steps[i], n);
      StepReservation(run[i], steps[i], r);
      UsedBetween(run, steps, i + 1, j, r, n);
      StepGeneration(run[i], steps[i], n);
    }
  }

  lemma {:induction false} OpenThroughout(run: seq<State>, steps: seq<Step>, i: nat, j: nat, r: nat, n: nat, g: nat)
    requires IsRun(run, steps) && i <= j < |run| && r < |run[i].res| && r < |run[j].res| && n == run[i].res[r].node
    requires run[j].res[r].live && run[i].res[r].met == run[j].res[r].met
    requires n < |run[i].nodes| && n < |run[j].nodes|
    requires run[i].nodes[n].control == Gen(g) && run[j].nodes[n].control == Gen(g)
    ensures run[j].nodes[n].owner == run[i].nodes[n].owner
    ensures forall k: nat :: i <= k <= j ==> n < |run[k].nodes| && run[k].nodes[n].control == Gen(g)
    decreases j - i
  {
    RunsInv(run, steps, i);
    RunsInv(run, steps, j);
    assert NodeOk(run[i], n) && NodeOk(run[j], n);
    UsedBetween(run, steps, i, j, r, n);
    if i < j {
      var k := j - 1;
      NoClaim(run, steps, i, j, r, k);
      RunsInv(run, steps, k);
      assert StepAt(run, steps, k) && ReservationOk(run[k], r);
      StepOwner(run[k], steps[k], n);
      StepGeneration(run[k], steps[k], n);
      UsedBetween(run, steps, i, k, r, n);
      OpenThroughout(run, steps, i, k, r, n, g);
    }
  }

  /**
   A helper that has read a generation under its reservation, and finds the same generation there later, finds the same
   transaction: of the same owner, and open all the time. So a replacement never goes to a later owner that happens to
   use the generation again; unless a stale release has caught the reservation.
   */
  lemma HelperFindsSameTransaction(run: seq<State>, steps: seq<Step>, i: nat, j: nat, r: nat, n: nat, g: nat)
    requires IsRun(run, steps) && i <= j < |run| && r < |run[i].res| && r < |run[j].res| && n == run[i].res[r].node
    requires run[j].res[r].live && n < |run[i].nodes| && n < |run[j].nodes|
    requires run[i].nodes[n].control == Gen(g) && run[j].nodes[n].control == Gen(g)
    requires forall k :: 0 <= k < j ==> !Catches(run[k], steps[k], r)
    ensures run[j].nodes[n].owner == run[i].nodes[n].owner && run[j].nodes[n].period == run[i].nodes[n].period
    ensures forall k: nat :: i <= k <= j ==> n < |run[k].nodes| && run[k].nodes[n].control == Gen(g)
  {
    ReservationOverTime(run, steps, i, j, r);
    RunsInv(run, steps, i);
    RunsInv(run, steps, j);
    assert NodeOk(run[i], n) && NodeOk(run[j], n);
    assert ReservationOk(run[i], r) && ReservationOk(run[j], r);
    if run[j].res[r].caught { var k := CaughtWhen(run, steps, j, r); }
    ReservationSpansOneOwnership(run, steps, i, j, r);
    OpenThroughout(run, steps, i, j, r, n, g);
  }

  lemma {:induction false} CaughtWhen(run: seq<State>, steps: seq<Step>, k: nat, r: nat) returns (i: nat)
    requires IsRun(run, steps) && k < |run| && r < |run[k].res| && run[k].res[r].caught
    ensures i < k && Catches(run[i], steps[i], r)
  {
    if k == 0 { assert false; }
    RunsInv(run, steps, k - 1);
    assert StepAt(run, steps, k - 1);
    if r < |run[k - 1].res| {
      assert StepAt(run, steps, k - 1);
      StepReservation(run[k - 1], steps[k - 1], r);
      if run[k - 1].res[r].caught { i := CaughtWhen(run, steps, k - 1, r); } else { i := k - 1; }
    }
  }

  lemma {:induction false} SecondHit(run: seq<State>, steps: seq<Step>, k: nat, r: nat) returns (i: nat, j: nat)
    requires IsRun(run, steps) && k < |run| && r < |run[k].res| && run[k].res[r].met >= 2
    ensures i < j < k && Catches(run[i], steps[i], r) && Hits(run[j], steps[j], r)
  {
    if k == 0 { assert false; }
    RunsInv(run, steps, k - 1);
    assert StepAt(run, steps, k - 1);
    if r < |run[k - 1].res| {
      assert StepAt(run, steps, k - 1);
      StepReservation(run[k - 1], steps[k - 1], r);
      if run[k - 1].res[r].met >= 2 {
        i, j := SecondHit(run, steps, k - 1, r);
      } else {
        assert ReservationOk(run[k - 1], r);
        i := CaughtWhen(run, steps, k - 1, r);
        j := k - 1;
      }
    }
  }

  /**
   Exactly when a reservation spans two ownerships: a stale release caught it after it had met the first, and then the
   node was claimed while the reservation was still there.
   */
  lemma SpansTwoOwnershipsIff(run: seq<State>, steps: seq<Step>, k: nat, r: nat)
    requires IsRun(run, steps) && k < |run| && r < |run[k].res|
    ensures run[k].res[r].met >= 2 <==>
      exists i, j :: 0 <= i < j < k && Catches(run[i], steps[i], r) && Hits(run[j], steps[j], r)
  {
    if run[k].res[r].met >= 2 {
      var i, j := SecondHit(run, steps, k, r);
    }
    forall i, j | 0 <= i < j < k && Catches(run[i], steps[i], r) && Hits(run[j], steps[j], r)
      ensures run[k].res[r].met >= 2
    {
      ReservationOverTime(run, steps, i, j, r);
      RunsInv(run, steps, j);
      assert StepAt(run, steps, j);
      StepReservation(run[j], steps[j], r);
      ReservationOverTime(run, steps, j + 1, k, r);
    }
  }

  // ---- The code does not exclude it ----

  ghost predicate Reachable(s: State) {
    exists run: seq<State>, steps: seq<Step> :: IsRun(run, steps) && run[|steps|] == s
  }

  lemma ReachNext(s: State, step: Step)
    requires Reachable(s) && Enabled(s, step)
    ensures Reachable(Next(s, step))
  {
    var run: seq<State>, steps: seq<Step> :| IsRun(run, steps) && run[|steps|] == s;
    var run', steps' := run + [Next(s, step)], steps + [step];
    forall i | 0 <= i < |steps'| ensures StepAt(run', steps', i) {
      if i < |steps| { assert StepAt(run, steps, i); }
    }
    assert IsRun(run', steps') && run'[|steps'|] == Next(s, step);
  }

  lemma ReachFirst(s: State)
    requires Init(s)
    ensures Reachable(s)
  {
    var steps: seq<Step> := [];
    assert IsRun([s], steps) && [s][|steps|] == s;
  }

  lemma Go(s: State, t: nat)
    requires Reachable(s) && Enabled(s, Run(t))
    ensures Reachable(RunThread(s, t))
  {
    ReachNext(s, Run(t));
  }

  /** A thread starts at the head and sees the first node cool down with no writer there. */
  lemma Seeks(s: State, t: nat)
    requires Reachable(s) && t < |s.threads| && s.threads[t].Free? && s.head == Ref(0)
    requires |s.nodes| > 0 && s.nodes[0].use.Cooldown? && s.nodes[0].writers == 0
    ensures Reachable(SetPc(s, t, Reset(0, s.nodes[0].period)))
  {
    var a, b := SetPc(s, t, Look(0)), SetPc(s, t, Count(0, s.nodes[0].period));
    Go(s, t);
    Go(a, t);
    assert RunThread(a, t) == b;
    Go(b, t);
    assert RunThread(b, t) == SetPc(s, t, Reset(0, s.nodes[0].period));
  }

  /** The release and claim of the first node. */
  function Taken(s: State, t: nat, stale: bool): State
    requires t < |s.threads| && |s.nodes| > 0
  {
    SetPc(s, t, Owner(0)).(nodes := s.nodes[0 := s.nodes[0].(use := Used, owner := t)],
                           res := Claimed(Released(s.res, 0, stale), 0), gens := FromZero(s.gens, t))
  }

  lemma Takes(s: State, t: nat, p: nat)
    requires Reachable(s) && t < |s.threads| && s.threads[t] == Reset(0, p) && |s.nodes| > 0 && s.nodes[0].use.Cooldown?
    ensures Reachable(Taken(s, t, p != s.nodes[0].period))
  {
    Go(s, t);
    var a := RunThread(s, t);
    Go(a, t);
    assert RunThread(a, t) == Taken(s, t, p != s.nodes[0].period);
  }

  /** The owner of the first node puts it into cooldown. */
  function Cooled(s: State, t: nat): State
    requires t < |s.threads| && |s.nodes| > 0
  {
    var node := s.nodes[0].(use := Cooldown, writers := s.nodes[0].writers + 1, period := s.nodes[0].period + 1);
    SetPc(s, t, Leave(0, |s.res|))
      .(nodes := s.nodes[0 := node], res := s.res + [Reservation(0, true, Retiree(t), 1, false)])
  }

  lemma Cools(s: State, t: nat)
    requires Reachable(s) && t < |s.threads| && s.threads[t] == Owner(0) && |s.nodes| > 0 && s.nodes[0].use.Used?
    requires s.nodes[0].control.Idle?
    ensures Reachable(Cooled(s, t))
  {
    Go(s, t);
    var a := RunThread(s, t);
    Go(a, t);
    assert RunThread(a, t) == Cooled(s, t);
  }

  /** States with one node in the list and three threads. */
  function One(use: Use, writers: int, period: nat, owner: nat, threads: seq<Pc>, res: seq<Reservation>): State {
    State([Node(use, writers, Null, period, owner, Idle)], Ref(0), [0], threads, res, [0, 0, 0])
  }

  lemma Makes(s: State, t: nat)
    requires Reachable(s) && t < |s.threads| && s.threads[t].Free? && s.head.Null?
    ensures Reachable(NewNode(s, t))
  {
    Go(s, t);
    var a := RunThread(s, t);
    Go(a, t);
    assert RunThread(a, t) == NewNode(s, t);
  }

  lemma Made()
    ensures Reachable(One(Used, 0, 0, 0, [Owner(0), Free, Free], []))
  {
    var a := State([], Null, [], [Free, Free, Free], [], [0, 0, 0]);
    ReachFirst(a);
    Makes(a, 0);
    var b := NewNode(a, 0);
    Go(b, 0);
    assert RunThread(b, 0) == One(Used, 0, 0, 0, [Owner(0), Free, Free], []);
  }

  /** Thread 0 makes the node, uses it and leaves. */
  lemma Left(gone: Reservation)
    requires gone == Reservation(0, false, Retiree(0), 1, false)
    ensures Reachable(One(Cooldown, 0, 1, 0, [Free, Free, Free], [gone]))
  {
    Made();
    var a := One(Used, 0, 0, 0, [Owner(0), Free, Free], []);
    var b := One(Cooldown, 1, 1, 0, [Leave(0, 0), Free, Free], [gone.(live := true)]);
    Cools(a, 0);
    assert Cooled(a, 0) == b;
    Go(b, 0);
    assert RunThread(b, 0) == One(Cooldown, 0, 1, 0, [Free, Free, Free], [gone]);
  }

  /** Threads 1 and 2 both see the node cool down with no writer there; thread 2 claims it. */
  lemma Reclaimed(gone: Reservation)
    requires gone == Reservation(0, false, Retiree(0), 1, false)
    ensures Reachable(One(Used, 0, 1, 2, [Free, Reset(0, 1), Owner(0)], [gone]))
  {
    Left(gone);
    var a := One(Cooldown, 0, 1, 0, [Free, Free, Free], [gone]);
    var b := One(Cooldown, 0, 1, 0, [Free, Reset(0, 1), Free], [gone]);
    var c := One(Cooldown, 0, 1, 0, [Free, Reset(0, 1), Reset(0, 1)], [gone]);
    Seeks(a, 1);
    assert SetPc(a, 1, Reset(0, 1)) == b;
    Seeks(b, 2);
    assert SetPc(b, 2, Reset(0, 1)) == c;
    Takes(c, 2, 1);
    assert Taken(c, 2, false) == One(Used, 0, 1, 2, [Free, Reset(0, 1), Owner(0)], [gone]);
  }

  /**
   `check_cooldown` does not exclude it: with thread 2 as owner a writer reserves the node and thread 2 leaves; then
   thread 1 releases the node because of the zero it read long ago, and claims it under the writer's reservation.
   */
  lemma ReservationCanSpanTwoOwnerships() returns (s: State, s': State)
    ensures Reachable(s) && Reachable(s') && |s.res| == 2 && |s'.res| == 3 && |s.nodes| == 1 && |s'.nodes| == 1
    ensures s.res[1] == Reservation(0, true, Writer, 1, false) && s.nodes[0].use.Used? && s.nodes[0].owner == 2
    ensures s'.res[1] == Reservation(0, true, Writer, 2, true) && s'.nodes[0].use.Used? && s'.nodes[0].owner == 1
  {
    var gone := Reservation(0, false, Retiree(0), 1, false);
    Reclaimed(gone);
    s := One(Used, 0, 1, 2, [Free, Reset(0, 1), Owner(0)], [gone]);
    ReachNext(s, Reserve(0));
    s := Next(s, Reserve(0));
    Cools(s, 2);
    s' := Cooled(s, 2);
    Takes(s', 1, 1);
    s' := Taken(s', 1, true);
  }

  lemma Opens(s: State, t: nat)
    requires Reachable(s) && Enabled(s, Open(t))
    ensures Reachable(OpenTransaction(s, t))
  {
    ReachNext(s, Open(t));
  }

  /** Thread 2 owns the node and has a transaction open; a writer has it reserved. */
  function Opened(gone: Reservation, control: Control): State {
    State([Node(Used, 1, Null, 1, 2, control)], Ref(0), [0], [Free, Reset(0, 1), Owner(0)],
          [gone, Reservation(0, true, Writer, 1, false)], [0, 0, 1])
  }

  lemma OpenedIsReachable(gone: Reservation)
    requires gone == Reservation(0, false, Retiree(0), 1, false)
    ensures Reachable(Opened(gone, Gen(1))) && Reachable(Opened(gone, Idle))
  {
    Reclaimed(gone);
    var a := One(Used, 0, 1, 2, [Free, Reset(0, 1), Owner(0)], [gone]);
    var b := One(Used, 1, 1, 2, [Free, Reset(0, 1), Owner(0)], [gone, Reservation(0, true, Writer, 1, false)]);
    ReachNext(a, Reserve(0));
    assert Next(a, Reserve(0)) == b;
    Opens(b, 2);
    assert OpenTransaction(b, 2) == Opened(gone, Gen(1));
    Go(Opened(gone, Gen(1)), 2);
    assert RunThread(Opened(gone, Gen(1)), 2) == Opened(gone, Idle);
  }

  /** In such a run the helper's test fails: under one reservation, two owners have a transaction with generation 1. */
  lemma GenerationCanBeReused() returns (s: State, s': State)
    ensures Reachable(s) && Reachable(s') && |s.res| == 2 && |s'.res| == 3 && |s.nodes| == 1 && |s'.nodes| == 1
    ensures s.res[1] == Reservation(0, true, Writer, 1, false) && s.nodes[0].control == Gen(1) && s.nodes[0].owner == 2
    ensures s'.res[1] == Reservation(0, true, Writer, 2, true) && s'.nodes[0].control == Gen(1)
    ensures s'.nodes[0].owner == 1
  {
    var gone := Reservation(0, false, Retiree(0), 1, false);
    OpenedIsReachable(gone);
    s, s' := Opened(gone, Gen(1)), Opened(gone, Idle);
    Cools(s', 2);
    s' := Cooled(s', 2);
    Takes(s', 1, 1);
    s' := Taken(s', 1, true);
    Opens(s', 1);
    s' := OpenTransaction(s', 1);
  }
}
