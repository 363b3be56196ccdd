/**
 The hybrid strategy as an interleaved machine: any number of threads and storages, one step per
 atomic operation. Thread `t` owns node `t`; a thread prepends it to the list when it first needs it.

 Claims stand for the Rust values that the code passes around: the pointer of a claim and the slot of a debt are what
 the code holds. Who holds a claim, whether a debt is confirmed, the fields called `lin`, `start`, `at`, `since`, `put`
 and the components `log` and `events` are history variables: no step depends on them.
 */
module Machine {
  import opened Ledger

  /** The control word of a node: idle, a tagged generation, or a tagged pointer to an envelope. */
  datatype Control = Idle | Gen(g: nat) | Repl(env: nat, claim: nat, ptr: Ptr, lin: nat)

  /** `since` is the newest entry of the storage's log when the control word was last set to a generation. */
  datatype Node = Node(control: Control, addr: nat, offer: nat, gen: nat, offset: nat, since: nat)

  /** One modification of a storage; `expected` is set for a compare-exchange. */
  datatype Write = Write(ptr: Ptr, expected: Option<Ptr>)

  datatype Storage = Storage(alive: bool, fast: bool, ptr: Ptr, claim: nat, log: seq<Write>)

  /** Where a thread is inside `HybridStrategy::load`. */
  datatype LoadPc =
    | ReadPtr
    | ScanFast(ptr: Ptr, lin: nat, i: nat)
    | PutFast(ptr: Ptr, lin: nat, i: nat)
    | Recheck(ptr: Ptr, lin: nat, c: nat)
    | GiveBack(ptr: Ptr, lin: nat, c: nat)
    | Publish
    | Open
    | ReadCand
    | PutCand(ptr: Ptr, lin: nat)
    | Close(ptr: Ptr, lin: nat, c: nat)
    | OwnInc(ptr: Ptr, lin: nat, c: nat)
    | OwnPay(ptr: Ptr, lin: nat, c: nat, d: nat)
    | OwnDec(ptr: Ptr, lin: nat, c: nat, d: nat)
    | TakeEnv(ptr: Ptr, c: nat, env: nat, r: nat, rptr: Ptr, rlin: nat)
    | StoreOffer(ptr: Ptr, c: nat, env: nat, r: nat, rptr: Ptr, rlin: nat)
    | DropCand(ptr: Ptr, c: nat, r: nat, rptr: Ptr, rlin: nat)
    | DecCand(ptr: Ptr, c: nat, r: nat, rptr: Ptr, rlin: nat)
    | Done(ptr: Ptr, lin: nat, c: nat)

  /** `start` is the newest entry of the storage's log when the load began; `own` asks for `into_inner`. */
  datatype Load = NoLoad | Loading(a: nat, start: nat, own: bool, pc: LoadPc)

  /** Where a writer is inside `help`, for the node at the head of its remaining list. */
  datatype HelpPc =
    | HRead
    | HAddr(g: nat)
    | HRecheck(g: nat)
    | HLoad(g: nat)
    | HTheir(g: nat, r: nat, rptr: Ptr, rlin: nat)
    | HMine(g: nat, r: nat, rptr: Ptr, rlin: nat, their: nat)
    | HFill(g: nat, r: nat, rptr: Ptr, rlin: nat, their: nat, mine: nat)
    | HCas(g: nat, r: nat, rptr: Ptr, rlin: nat, their: nat, mine: nat)
    | HStore(their: nat)
    | HDrop(next: Option<nat>, r: nat, rptr: Ptr)

  /** Where a writer is inside `Debt::pay_all`; with `PayEnter` and `PayLink` it has no node yet. */
  datatype PayPc =
    | PayEnter
    | PayLink(head: Option<nat>)
    | PayInc
    | PayHead(pre: nat)
    | Helping(pre: nat, rest: seq<nat>, h: HelpPc)
    | PaySlot(pre: nat, rest: seq<nat>, i: nat)
    | PaySlotInc(rest: seq<nat>, i: nat)
    | PayEnd(pre: nat)
    | PayRet

  /** What the writer does with the value it took out; `put` is what it has put in, if anything. */
  datatype After = RetOld(put: Option<Ptr>) | Destroy | RetGuard(guard: nat, cur: Ptr, neu: Ptr)

  datatype Op =
    | Detached
    | Attaching(head: Option<nat>)
    | Ready
    | UserLoad
    | Pay(a: nat, gone: Ptr, at: nat, val: nat, after: After, pc: PayPc)
    | CasLoad(a: nat, cur: Ptr, neu: nat, nptr: Ptr)
    | CasTry(a: nat, cur: Ptr, neu: nat, nptr: Ptr, guard: nat, lin: nat)
    | CasDropPay(a: nat, cur: Ptr, neu: nat, nptr: Ptr, guard: nat)
    | CasDropDec(a: nat, cur: Ptr, neu: nat, nptr: Ptr, guard: nat)
    | CasMiss(a: nat, cur: Ptr, neu: nat, nptr: Ptr, guard: nat, gptr: Ptr, lin: nat)

  datatype ThreadState = ThreadState(load: Load, op: Op)

  /** Calls that have returned, and loads inside of calls. `at` or `over` is the log entry that was replaced. */
  datatype Event =
    | Loaded(t: nat, a: nat, start: nat, lin: nat, ptr: Ptr, end: nat)
    | SwapReturned(t: nat, a: nat, at: nat, ptr: Ptr, put: Option<Ptr>)
    | CasReturned(t: nat, a: nat, cur: Ptr, neu: Ptr, ptr: Ptr, over: Option<nat>)

  datatype State = State(
    book: Book,
    storages: seq<Storage>,
    nodes: seq<Node>,
    threads: seq<ThreadState>,
    list: seq<nat>,
    envs: seq<Ptr>,
    events: seq<Event>)

  /** What every state has, before any protocol argument. */
  ghost predicate Sane(s: State) {
    && |s.nodes| == |s.threads|
    && |s.envs| == |s.threads|
    && (forall a :: 0 <= a < |s.storages| ==>
      |s.storages[a].log| > 0 && s.storages[a].log[|s.storages[a].log| - 1].ptr == s.storages[a].ptr)
    && (forall n: nat, i: nat :: n < |s.threads| && i <= HELPING ==> SlotId(n, i) in s.book.slots)
  }

  function Newest(s: State, a: nat): nat
    requires a < |s.storages| && |s.storages[a].log| > 0
  {
    |s.storages[a].log| - 1
  }

  function SetLoad(s: State, t: nat, l: Load): State
    requires t < |s.threads|
  {
    s.(threads := s.threads[t := s.threads[t].(load := l)])
  }

  function SetOp(s: State, t: nat, o: Op): State
    requires t < |s.threads|
  {
    s.(threads := s.threads[t := s.threads[t].(op := o)])
  }

  function SetNode(s: State, n: nat, nd: Node): State
    requires n < |s.nodes|
  {
    s.(nodes := s.nodes[n := nd])
  }

  predicate InLoad(s: State, t: nat) {
    && t < |s.threads| && t < |s.nodes| && s.threads[t].load.Loading?
    && s.threads[t].load.a < |s.storages| && |s.storages[s.threads[t].load.a].log| > 0
  }

  function Goto(s: State, t: nat, pc: LoadPc): State
    requires InLoad(s, t)
  {
    SetLoad(s, t, s.threads[t].load.(pc := pc))
  }

  function NewLoad(s: State, a: nat, own: bool): Load
    requires a < |s.storages| && |s.storages[a].log| > 0
  {
    Loading(a, Newest(s, a), own, if s.storages[a].fast then ReadPtr else Publish)
  }

  // ---- HybridProtection::attempt ----

  function DoReadPtr(s: State, t: nat): State
    requires InLoad(s, t)
  {
    var a := s.threads[t].load.a;
    Goto(s, t, ScanFast(s.storages[a].ptr, Newest(s, a), 0))
  }

  /** One round of the loop in `fast::Slots::get_debt`. */
  function DoScanFast(s: State, t: nat): State
    requires InLoad(s, t) && s.threads[t].load.pc.ScanFast?
  {
    var pc := s.threads[t].load.pc;
    var j := (pc.i + s.nodes[t].offset) % FAST_SLOTS;
    var x := SlotId(t, j);
    if x in s.book.slots && s.book.slots[x].val.None? then Goto(s, t, PutFast(pc.ptr, pc.lin, j))
    else if pc.i + 1 < FAST_SLOTS then Goto(s, t, ScanFast(pc.ptr, pc.lin, pc.i + 1))
    else Goto(s, t, Publish)
  }

  function DoPutFast(s: State, t: nat): State
    requires InLoad(s, t) && s.threads[t].load.pc.PutFast?
  {
    var pc := s.threads[t].load.pc;
    SetNode(Goto(s, t, Recheck(pc.ptr, pc.lin, |s.book.claims|)), t, s.nodes[t].(offset := pc.i + 1))
      .(book := Place(s.book, SlotId(t, pc.i), pc.ptr, Thread(t, LoadClaim)))
  }

  function DoRecheck(s: State, t: nat): State
    requires InLoad(s, t) && s.threads[t].load.pc.Recheck?
    requires s.threads[t].load.pc.c < |s.book.claims| && s.book.claims[s.threads[t].load.pc.c].kind.Debt?
  {
    var l := s.threads[t].load;
    var pc := l.pc;
    if s.storages[l.a].ptr == pc.ptr then
      Goto(s, t, if l.own then OwnInc(pc.ptr, pc.lin, pc.c) else Done(pc.ptr, pc.lin, pc.c))
        .(book := Confirm(s.book, pc.c))
    else
      Goto(s, t, GiveBack(pc.ptr, pc.lin, pc.c))
  }

  function DoGiveBack(s: State, t: nat): State
    requires InLoad(s, t) && s.threads[t].load.pc.GiveBack?
    requires s.threads[t].load.pc.c < |s.book.claims| && s.book.claims[s.threads[t].load.pc.c].kind.Debt?
  {
    var pc := s.threads[t].load.pc;
    var cl := s.book.claims[pc.c];
    Goto(s, t, if Pays(s.book, cl.kind.at, pc.ptr) then Publish else Done(pc.ptr, pc.lin, pc.c))
      .(book := PayOwn(s.book, pc.c))
  }

  // ---- HybridProtection::fallback, helping::Slots::get_debt and confirm ----

  function DoPublish(s: State, t: nat): State
    requires InLoad(s, t)
  {
    SetNode(Goto(s, t, Open), t, s.nodes[t].(addr := s.threads[t].load.a, gen := s.nodes[t].gen + 1))
  }

  function DoOpen(s: State, t: nat): State
    requires InLoad(s, t)
  {
    var nd := s.nodes[t];
    SetNode(Goto(s, t, ReadCand), t, nd.(control := Gen(nd.gen), since := Newest(s, s.threads[t].load.a)))
  }

  function DoReadCand(s: State, t: nat): State
    requires InLoad(s, t)
  {
    var a := s.threads[t].load.a;
    Goto(s, t, PutCand(s.storages[a].ptr, Newest(s, a)))
  }

  function DoPutCand(s: State, t: nat): State
    requires InLoad(s, t) && s.threads[t].load.pc.PutCand?
  {
    var pc := s.threads[t].load.pc;
    Goto(s, t, Close(pc.ptr, pc.lin, |s.book.claims|))
      .(book := Place(s.book, SlotId(t, HELPING), pc.ptr, Thread(t, LoadClaim)))
  }

  /** The swap of the control word back to idle; an idle word there is the debug assertion's case. */
  function DoClose(s: State, t: nat): State
    requires InLoad(s, t) && s.threads[t].load.pc.Close?
    requires s.threads[t].load.pc.c < |s.book.claims| && s.book.claims[s.threads[t].load.pc.c].kind.Debt?
    requires s.nodes[t].control.Repl? ==> s.nodes[t].control.claim < |s.book.claims|
  {
    var pc := s.threads[t].load.pc;
    var w := s.nodes[t].control;
    var closed := SetNode(s, t, s.nodes[t].(control := Idle));
    if w == Gen(s.nodes[t].gen) then
      Goto(closed, t, OwnInc(pc.ptr, pc.lin, pc.c)).(book := Confirm(s.book, pc.c))
    else if w.Repl? then
      Goto(closed, t, TakeEnv(pc.ptr, pc.c, w.env, w.claim, w.ptr, w.lin))
        .(book := Move(s.book, w.claim, Thread(t, LoadRepl)))
    else s
  }

  // ---- HybridProtection::into_inner, inside a load ----

  function DoOwnInc(s: State, t: nat): State
    requires InLoad(s, t) && s.threads[t].load.pc.OwnInc? && s.threads[t].load.pc.ptr < |s.book.cnt|
  {
    var pc := s.threads[t].load.pc;
    Goto(s, t, OwnPay(pc.ptr, pc.lin, pc.c, |s.book.claims|))
      .(book := Inc(s.book, pc.ptr, Thread(t, LoadOwned)))
  }

  function DoOwnPay(s: State, t: nat): State
    requires InLoad(s, t) && s.threads[t].load.pc.OwnPay?
    requires s.threads[t].load.pc.c < |s.book.claims| && s.book.claims[s.threads[t].load.pc.c].kind.Debt?
    requires s.threads[t].load.pc.d < |s.book.claims|
  {
    var pc := s.threads[t].load.pc;
    var cl := s.book.claims[pc.c];
    if Pays(s.book, cl.kind.at, pc.ptr) then
      Goto(s, t, Done(pc.ptr, pc.lin, pc.d)).(book := Move(PayOwn(s.book, pc.c), pc.d, Thread(t, LoadClaim)))
    else
      Goto(s, t, OwnDec(pc.ptr, pc.lin, pc.c, pc.d)).(book := PayOwn(s.book, pc.c))
  }

  function DoOwnDec(s: State, t: nat): State
    requires InLoad(s, t) && s.threads[t].load.pc.OwnDec?
    requires s.threads[t].load.pc.c < |s.book.claims| && s.threads[t].load.pc.d < |s.book.claims|
    requires s.book.claims[s.threads[t].load.pc.c].ptr < |s.book.cnt|
  {
    var pc := s.threads[t].load.pc;
    Goto(s, t, Done(pc.ptr, pc.lin, pc.d)).(book := Move(Dec(s.book, pc.c), pc.d, Thread(t, LoadClaim)))
  }

  // ---- The helped path ----

  function DoTakeEnv(s: State, t: nat): State
    requires InLoad(s, t) && s.threads[t].load.pc.TakeEnv? && s.threads[t].load.pc.env < |s.envs|
  {
    var pc := s.threads[t].load.pc;
    Goto(s, t, StoreOffer(pc.ptr, pc.c, pc.env, pc.r, s.envs[pc.env], pc.rlin))
  }

  function DoStoreOffer(s: State, t: nat): State
    requires InLoad(s, t) && s.threads[t].load.pc.StoreOffer?
  {
    var pc := s.threads[t].load.pc;
    SetNode(Goto(s, t, DropCand(pc.ptr, pc.c, pc.r, pc.rptr, pc.rlin)), t, s.nodes[t].(offer := pc.env))
  }

  function DoDropCand(s: State, t: nat): State
    requires InLoad(s, t) && s.threads[t].load.pc.DropCand?
    requires s.threads[t].load.pc.c < |s.book.claims| && s.book.claims[s.threads[t].load.pc.c].kind.Debt?
    requires s.threads[t].load.pc.r < |s.book.claims|
  {
    var pc := s.threads[t].load.pc;
    var cl := s.book.claims[pc.c];
    if Pays(s.book, cl.kind.at, pc.ptr) then
      Goto(s, t, Done(pc.rptr, pc.rlin, pc.r)).(book := Move(PayOwn(s.book, pc.c), pc.r, Thread(t, LoadClaim)))
    else
      Goto(s, t, DecCand(pc.ptr, pc.c, pc.r, pc.rptr, pc.rlin)).(book := PayOwn(s.book, pc.c))
  }

  function DoDecCand(s: State, t: nat): State
    requires InLoad(s, t) && s.threads[t].load.pc.DecCand?
    requires s.threads[t].load.pc.c < |s.book.claims| && s.threads[t].load.pc.r < |s.book.claims|
    requires s.book.claims[s.threads[t].load.pc.c].ptr < |s.book.cnt|
  {
    var pc := s.threads[t].load.pc;
    Goto(s, t, Done(pc.rptr, pc.rlin, pc.r)).(book := Move(Dec(s.book, pc.c), pc.r, Thread(t, LoadClaim)))
  }

  // ---- A finished load goes to whoever asked for it ----

  predicate AtDone(s: State, t: nat) {
    InLoad(s, t) && s.threads[t].load.pc.Done? && s.threads[t].load.pc.c < |s.book.claims|
  }

  function LoadEvent(s: State, t: nat): Event
    requires AtDone(s, t)
  {
    var l := s.threads[t].load;
    Loaded(t, l.a, l.start, l.pc.lin, l.pc.ptr, Newest(s, l.a))
  }

  function Finish(s: State, t: nat, o: Op, h: Holder): State
    requires AtDone(s, t)
  {
    s.(threads := s.threads[t := ThreadState(NoLoad, o)],
       book := Move(s.book, s.threads[t].load.pc.c, h),
       events := s.events + [LoadEvent(s, t)])
  }

  function DoDeliver(s: State, t: nat): State
    requires AtDone(s, t)
  {
    var pc := s.threads[t].load.pc;
    match s.threads[t].op
    case CasLoad(a, cur, neu, nptr) =>
      Finish(s, t,
             if pc.ptr == cur then CasTry(a, cur, neu, nptr, pc.c, pc.lin)
             else CasMiss(a, cur, neu, nptr, pc.c, pc.ptr, pc.lin),
             Thread(t, OldGuard))
    case Pay(a, gone, at, val, after, Helping(pre, rest, HLoad(g))) =>
      var h := HTheir(g, pc.c, pc.ptr, pc.lin);
      Finish(s, t, Pay(a, gone, at, val, after, Helping(pre, rest, h)), Thread(t, Replacement))
    case _ => Finish(s, t, Ready, User)
  }

  // ---- Debt::pay_all ----

  predicate InPay(s: State, t: nat) {
    && t < |s.threads| && t < |s.nodes| && s.threads[t].op.Pay?
    && s.threads[t].op.a < |s.storages| && |s.storages[s.threads[t].op.a].log| > 0
  }

  function GotoPay(s: State, t: nat, pc: PayPc): State
    requires InPay(s, t)
  {
    SetOp(s, t, s.threads[t].op.(pc := pc))
  }

  function NextNode(pre: nat, rest: seq<nat>): PayPc {
    if rest == [] then PayEnd(pre) else Helping(pre, rest, HRead)
  }

  function NextSlot(pre: nat, rest: seq<nat>, i: nat): PayPc
    requires rest != []
  {
    if i < HELPING then PaySlot(pre, rest, i + 1) else NextNode(pre, rest[1..])
  }

  function DoPayInc(s: State, t: nat): State
    requires InPay(s, t) && s.threads[t].op.gone < |s.book.cnt|
  {
    GotoPay(s, t, PayHead(|s.book.claims|)).(book := Inc(s.book, s.threads[t].op.gone, Thread(t, Prepaid)))
  }

  function DoPayHead(s: State, t: nat): State
    requires InPay(s, t) && s.threads[t].op.pc.PayHead?
  {
    GotoPay(s, t, NextNode(s.threads[t].op.pc.pre, s.list))
  }

  function DoPaySlot(s: State, t: nat): State
    requires InPay(s, t) && s.threads[t].op.pc.PaySlot? && s.threads[t].op.pc.rest != []
    requires s.threads[t].op.pc.pre < |s.book.claims|
  {
    var pc := s.threads[t].op.pc;
    var x := SlotId(pc.rest[0], pc.i);
    if Pays(s.book, x, s.threads[t].op.gone) then
      GotoPay(s, t, PaySlotInc(pc.rest, pc.i)).(book := PayFor(s.book, x, pc.pre))
    else
      GotoPay(s, t, NextSlot(pc.pre, pc.rest, pc.i))
  }

  function DoPaySlotInc(s: State, t: nat): State
    requires InPay(s, t) && s.threads[t].op.pc.PaySlotInc? && s.threads[t].op.pc.rest != []
    requires s.threads[t].op.gone < |s.book.cnt|
  {
    var pc := s.threads[t].op.pc;
    GotoPay(s, t, NextSlot(|s.book.claims|, pc.rest, pc.i))
      .(book := Inc(s.book, s.threads[t].op.gone, Thread(t, Prepaid)))
  }

  function DoPayEnd(s: State, t: nat): State
    requires InPay(s, t) && s.threads[t].op.pc.PayEnd?
    requires s.threads[t].op.pc.pre < |s.book.claims| && s.book.claims[s.threads[t].op.pc.pre].ptr < |s.book.cnt|
  {
    GotoPay(s, t, PayRet).(book := Dec(s.book, s.threads[t].op.pc.pre))
  }

  /** The writer returns: `swap` and `into_inner` hand the old value out, the others release it. */
  function DoPayRet(s: State, t: nat): State
    requires InPay(s, t) && s.threads[t].op.val < |s.book.claims|
    requires s.book.claims[s.threads[t].op.val].ptr < |s.book.cnt|
    requires s.threads[t].op.after.RetGuard? ==> s.threads[t].op.after.guard < |s.book.claims|
  {
    var o := s.threads[t].op;
    match o.after
    case RetOld(put) =>
      SetOp(s, t, Ready).(book := Move(s.book, o.val, User),
                          events := s.events + [SwapReturned(t, o.a, o.at, s.book.claims[o.val].ptr, put)])
    case Destroy => SetOp(s, t, Ready).(book := Dec(s.book, o.val))
    case RetGuard(guard, cur, neu) =>
      SetOp(s, t, Ready).(book := Move(Dec(s.book, o.val), guard, User),
                          events := s.events + [CasReturned(t, o.a, cur, neu, s.book.claims[guard].ptr, Some(o.at))])
  }

  // ---- helping::Slots::help ----

  predicate InHelp(s: State, t: nat) {
    && InPay(s, t) && s.threads[t].op.pc.Helping? && s.threads[t].op.pc.rest != []
    && s.threads[t].op.pc.rest[0] < |s.nodes|
  }

  function Who(s: State, t: nat): nat
    requires InHelp(s, t)
  {
    s.threads[t].op.pc.rest[0]
  }

  function GotoHelp(s: State, t: nat, h: HelpPc): State
    requires InHelp(s, t)
  {
    GotoPay(s, t, s.threads[t].op.pc.(h := h))
  }

  function LeaveHelp(s: State, t: nat): State
    requires InHelp(s, t)
  {
    GotoPay(s, t, PaySlot(s.threads[t].op.pc.pre, s.threads[t].op.pc.rest, 0))
  }

  /** The top of the loop in `help`, for the control word `w` just read. */
  function Dispatch(s: State, t: nat, w: Control): State
    requires InHelp(s, t)
  {
    if w.Gen? then GotoHelp(s, t, HAddr(w.g)) else LeaveHelp(s, t)
  }

  function DoHRead(s: State, t: nat): State
    requires InHelp(s, t)
  {
    Dispatch(s, t, s.nodes[Who(s, t)].control)
  }

  function DoHAddr(s: State, t: nat): State
    requires InHelp(s, t) && s.threads[t].op.pc.h.HAddr?
  {
    var o := s.threads[t].op;
    if s.nodes[Who(s, t)].addr != o.a then GotoHelp(s, t, HRecheck(o.pc.h.g))
    else SetLoad(GotoHelp(s, t, HLoad(o.pc.h.g)), t, NewLoad(s, o.a, true))
  }

  function DoHRecheck(s: State, t: nat): State
    requires InHelp(s, t) && s.threads[t].op.pc.h.HRecheck?
  {
    var w := s.nodes[Who(s, t)].control;
    if w == Gen(s.threads[t].op.pc.h.g) then LeaveHelp(s, t) else Dispatch(s, t, w)
  }

  function DoHTheir(s: State, t: nat): State
    requires InHelp(s, t) && s.threads[t].op.pc.h.HTheir?
  {
    var h := s.threads[t].op.pc.h;
    GotoHelp(s, t, HMine(h.g, h.r, h.rptr, h.rlin, s.nodes[Who(s, t)].offer))
  }

  function DoHMine(s: State, t: nat): State
    requires InHelp(s, t) && s.threads[t].op.pc.h.HMine?
  {
    var h := s.threads[t].op.pc.h;
    GotoHelp(s, t, HFill(h.g, h.r, h.rptr, h.rlin, h.their, s.nodes[t].offer))
  }

  function DoHFill(s: State, t: nat): State
    requires InHelp(s, t) && s.threads[t].op.pc.h.HFill? && s.threads[t].op.pc.h.mine < |s.envs|
  {
    var h := s.threads[t].op.pc.h;
    GotoHelp(s, t, HCas(h.g, h.r, h.rptr, h.rlin, h.their, h.mine)).(envs := s.envs[h.mine := h.rptr])
  }

  function DoHCas(s: State, t: nat): State
    requires InHelp(s, t) && s.threads[t].op.pc.h.HCas? && s.threads[t].op.pc.h.r < |s.book.claims|
  {
    var h := s.threads[t].op.pc.h;
    var n := Who(s, t);
    var w := s.nodes[n].control;
    if w == Gen(h.g) then
      SetNode(GotoHelp(s, t, HStore(h.their)), n, s.nodes[n].(control := Repl(h.mine, h.r, h.rptr, h.rlin)))
        .(book := Move(s.book, h.r, Word(n)))
    else
      GotoHelp(s, t, HDrop(if w.Gen? then Some(w.g) else None, h.r, h.rptr))
  }

  function DoHStore(s: State, t: nat): State
    requires InHelp(s, t) && s.threads[t].op.pc.h.HStore?
  {
    SetNode(LeaveHelp(s, t), t, s.nodes[t].(offer := s.threads[t].op.pc.h.their))
  }

  function DoHDrop(s: State, t: nat): State
    requires InHelp(s, t) && s.threads[t].op.pc.h.HDrop? && s.threads[t].op.pc.h.r < |s.book.claims|
    requires s.book.claims[s.threads[t].op.pc.h.r].ptr < |s.book.cnt|
  {
    var h := s.threads[t].op.pc.h;
    (if h.next.Some? then GotoHelp(s, t, HAddr(h.next.value)) else LeaveHelp(s, t))
      .(book := Dec(s.book, h.r))
  }

  // ---- HybridStrategy::compare_and_swap ----

  predicate CasOp(o: Op) {
    o.CasTry? || o.CasDropPay? || o.CasDropDec? || o.CasMiss?
  }

  predicate InCas(s: State, t: nat) {
    && t < |s.threads|
    && CasOp(s.threads[t].op)
    && s.threads[t].op.a < |s.storages| && |s.storages[s.threads[t].op.a].log| > 0
    && s.threads[t].op.guard < |s.book.claims| && s.threads[t].op.neu < |s.book.claims|
  }

  predicate Usable(s: State, a: nat) {
    a < |s.storages| && s.storages[a].alive && |s.storages[a].log| > 0 && s.storages[a].claim < |s.book.claims|
  }

  /** A thread that has no node gets one on its way into `pay_all`. */
  function FirstPc(s: State, t: nat): PayPc
    requires t < |s.threads|
  {
    if s.threads[t].op.Detached? then PayEnter else PayInc
  }

  /** Stores `p` under claim `c` into a storage and gives the replaced value's claim to thread `t`. */
  function Install(s: State, t: nat, a: nat, p: Ptr, c: nat, expected: Option<Ptr>, after: After): State
    requires t < |s.threads| && Usable(s, a) && c < |s.book.claims|
  {
    var st := s.storages[a];
    SetOp(s, t, Pay(a, st.ptr, Newest(s, a), st.claim, after, FirstPc(s, t)))
      .(storages := s.storages[a := st.(ptr := p, claim := c, log := st.log + [Write(p, expected)])],
        book := Move(Move(s.book, st.claim, Thread(t, Val)), c, Cell(a)))
  }

  function Retry(s: State, t: nat): State
    requires InCas(s, t)
  {
    var o := s.threads[t].op;
    SetLoad(SetOp(s, t, CasLoad(o.a, o.cur, o.neu, o.nptr)), t, NewLoad(s, o.a, false))
  }

  /** The exchange failed: the guard is dropped and the loop starts over. */
  function DoCasFail(s: State, t: nat): State
    requires InCas(s, t) && s.threads[t].op.CasTry?
  {
    var o := s.threads[t].op;
    SetOp(s, t, if s.book.claims[o.guard].kind.Debt? then CasDropPay(o.a, o.cur, o.neu, o.nptr, o.guard)
                else CasDropDec(o.a, o.cur, o.neu, o.nptr, o.guard))
  }

  function DoCasTry(s: State, t: nat): State
    requires InCas(s, t) && s.threads[t].op.CasTry? && Usable(s, s.threads[t].op.a)
  {
    var o := s.threads[t].op;
    if s.storages[o.a].ptr == o.cur then
      Install(s, t, o.a, o.nptr, o.neu, Some(o.cur), RetGuard(o.guard, o.cur, o.nptr))
    else DoCasFail(s, t)
  }

  function DoCasDropPay(s: State, t: nat): State
    requires InCas(s, t) && s.threads[t].op.CasDropPay? && s.book.claims[s.threads[t].op.guard].kind.Debt?
  {
    var o := s.threads[t].op;
    var cl := s.book.claims[o.guard];
    (if Pays(s.book, cl.kind.at, cl.ptr) then Retry(s, t)
     else SetOp(s, t, CasDropDec(o.a, o.cur, o.neu, o.nptr, o.guard)))
      .(book := PayOwn(s.book, o.guard))
  }

  function DoCasDropDec(s: State, t: nat): State
    requires InCas(s, t) && s.threads[t].op.CasDropDec? && s.book.claims[s.threads[t].op.guard].ptr < |s.book.cnt|
  {
    Retry(s, t).(book := Dec(s.book, s.threads[t].op.guard))
  }

  /** The value differs from `current`: the new value is released and the guard returned. */
  function DoCasMiss(s: State, t: nat): State
    requires InCas(s, t) && s.threads[t].op.CasMiss? && s.book.claims[s.threads[t].op.neu].ptr < |s.book.cnt|
  {
    var o := s.threads[t].op;
    SetOp(s, t, Ready).(book := Move(Dec(s.book, o.neu), o.guard, User),
                        events := s.events + [CasReturned(t, o.a, o.cur, o.nptr, s.book.claims[o.guard].ptr, None)])
  }

  // ---- Node::get, for a thread without a node ----

  predicate Unattached(o: Op) {
    o.Detached? || o.Attaching? || (o.Pay? && (o.pc.PayEnter? || o.pc.PayLink?))
  }

  function Head(list: seq<nat>): Option<nat> {
    if list == [] then None else Some(list[0])
  }

  /** The loop that prepends the node; with `weak` the exchange of the head fails whatever the head is. */
  function DoAttach(s: State, t: nat, weak: bool): State
    requires t < |s.threads| && Unattached(s.threads[t].op)
  {
    match s.threads[t].op
    case Detached => SetOp(s, t, Attaching(Head(s.list)))
    case Attaching(head) =>
      if Head(s.list) == head && !weak then SetOp(s, t, Ready).(list := [t] + s.list)
      else SetOp(s, t, Attaching(Head(s.list)))
    case Pay(_, _, _, _, _, pc) =>
      if pc.PayLink? && Head(s.list) == pc.head && !weak then
        SetOp(s, t, s.threads[t].op.(pc := PayInc)).(list := [t] + s.list)
      else SetOp(s, t, s.threads[t].op.(pc := PayLink(Head(s.list))))
  }

  // ---- One atomic step of thread `t` ----

  ghost predicate HasDebt(b: Book, c: nat) {
    c < |b.claims| && b.claims[c].kind.Debt?
  }

  ghost predicate HasCount(b: Book, c: nat) {
    c < |b.claims| && b.claims[c].ptr < |b.cnt|
  }

  /** What the next step of a load reads is there to be read. */
  ghost predicate CanLoad(s: State, t: nat) {
    && InLoad(s, t)
    && match s.threads[t].load.pc
       case Recheck(_, _, c) => HasDebt(s.book, c)
       case GiveBack(_, _, c) => HasDebt(s.book, c)
       case Close(_, _, c) =>
         HasDebt(s.book, c) && (s.nodes[t].control.Repl? ==> s.nodes[t].control.claim < |s.book.claims|)
       case OwnInc(p, _, _) => p < |s.book.cnt|
       case OwnPay(_, _, c, d) => HasDebt(s.book, c) && d < |s.book.claims|
       case OwnDec(_, _, c, d) => HasCount(s.book, c) && d < |s.book.claims|
       case TakeEnv(_, _, e, _, _, _) => e < |s.envs|
       case DropCand(_, c, r, _, _) => HasDebt(s.book, c) && r < |s.book.claims|
       case DecCand(_, c, r, _, _) => HasCount(s.book, c) && r < |s.book.claims|
       case Done(_, _, c) => c < |s.book.claims|
       case _ => true
  }

  ghost function RunLoad(s: State, t: nat): State
    requires CanLoad(s, t)
  {
    match s.threads[t].load.pc
    case ReadPtr => DoReadPtr(s, t)
    case ScanFast(_, _, _) => DoScanFast(s, t)
    case PutFast(_, _, _) => DoPutFast(s, t)
    case Recheck(_, _, _) => DoRecheck(s, t)
    case GiveBack(_, _, _) => DoGiveBack(s, t)
    case Publish => DoPublish(s, t)
    case Open => DoOpen(s, t)
    case ReadCand => DoReadCand(s, t)
    case PutCand(_, _) => DoPutCand(s, t)
    case Close(_, _, _) => DoClose(s, t)
    case OwnInc(_, _, _) => DoOwnInc(s, t)
    case OwnPay(_, _, _, _) => DoOwnPay(s, t)
    case OwnDec(_, _, _, _) => DoOwnDec(s, t)
    case TakeEnv(_, _, _, _, _, _) => DoTakeEnv(s, t)
    case StoreOffer(_, _, _, _, _, _) => DoStoreOffer(s, t)
    case DropCand(_, _, _, _, _) => DoDropCand(s, t)
    case DecCand(_, _, _, _, _) => DoDecCand(s, t)
    case Done(_, _, _) => DoDeliver(s, t)
  }

  ghost predicate CanHelp(s: State, t: nat) {
    && InHelp(s, t)
    && match s.threads[t].op.pc.h
       case HFill(_, _, _, _, _, mine) => mine < |s.envs|
       case HCas(_, r, _, _, _, _) => r < |s.book.claims|
       case HDrop(_, r, _) => HasCount(s.book, r)
       case HLoad(_) => false
       case _ => true
  }

  ghost function RunHelp(s: State, t: nat): State
    requires CanHelp(s, t)
  {
    match s.threads[t].op.pc.h
    case HRead => DoHRead(s, t)
    case HAddr(_) => DoHAddr(s, t)
    case HRecheck(_) => DoHRecheck(s, t)
    case HTheir(_, _, _, _) => DoHTheir(s, t)
    case HMine(_, _, _, _, _) => DoHMine(s, t)
    case HFill(_, _, _, _, _, _) => DoHFill(s, t)
    case HCas(_, _, _, _, _, _) => DoHCas(s, t)
    case HStore(_) => DoHStore(s, t)
    case HDrop(_, _, _) => DoHDrop(s, t)
  }

  ghost predicate CanPay(s: State, t: nat) {
    && InPay(s, t)
    && match s.threads[t].op.pc
       case PayEnter => false
       case PayLink(_) => false
       case PayInc => s.threads[t].op.gone < |s.book.cnt|
       case PayHead(_) => true
       case Helping(_, _, _) => CanHelp(s, t)
       case PaySlot(pre, rest, _) => rest != [] && pre < |s.book.claims|
       case PaySlotInc(rest, _) => rest != [] && s.threads[t].op.gone < |s.book.cnt|
       case PayEnd(pre) => HasCount(s.book, pre)
       case PayRet =>
         && HasCount(s.book, s.threads[t].op.val)
         && (s.threads[t].op.after.RetGuard? ==> s.threads[t].op.after.guard < |s.book.claims|)
  }

  ghost function RunPay(s: State, t: nat): State
    requires CanPay(s, t)
  {
    match s.threads[t].op.pc
    case PayInc => DoPayInc(s, t)
    case PayHead(_) => DoPayHead(s, t)
    case Helping(_, _, _) => RunHelp(s, t)
    case PaySlot(_, _, _) => DoPaySlot(s, t)
    case PaySlotInc(_, _) => DoPaySlotInc(s, t)
    case PayEnd(_) => DoPayEnd(s, t)
    case PayRet => DoPayRet(s, t)
  }

  ghost predicate CanCas(s: State, t: nat) {
    && InCas(s, t)
    && match s.threads[t].op
       case CasTry(a, _, _, _, _, _) => Usable(s, a)
       case CasDropPay(_, _, _, _, guard) => HasDebt(s.book, guard)
       case CasDropDec(_, _, _, _, guard) => HasCount(s.book, guard)
       case CasMiss(_, _, neu, _, _, _, _) => HasCount(s.book, neu)
  }

  ghost function RunCas(s: State, t: nat): State
    requires CanCas(s, t)
  {
    match s.threads[t].op
    case CasTry(_, _, _, _, _, _) => DoCasTry(s, t)
    case CasDropPay(_, _, _, _, _) => DoCasDropPay(s, t)
    case CasDropDec(_, _, _, _, _) => DoCasDropDec(s, t)
    case CasMiss(_, _, _, _, _, _, _) => DoCasMiss(s, t)
  }

  // ---- What the program around the crate may do ----

  predicate UserHas(s: State, c: nat) {
    c < |s.book.claims| && s.book.claims[c].holder.User? && !s.book.claims[c].kind.Spent?
      && s.book.claims[c].ptr < |s.book.cnt|
  }

  predicate UserOwns(s: State, c: nat) {
    UserHas(s, c) && s.book.claims[c].kind.Owned?
  }

  predicate IsReady(s: State, t: nat) {
    t < |s.threads| && t < |s.nodes| && s.threads[t].op.Ready? && s.threads[t].load.NoLoad?
  }

  /** Between operations, with or without a node. */
  predicate IsFree(s: State, t: nat) {
    && t < |s.threads| && t < |s.nodes| && (s.threads[t].op.Ready? || s.threads[t].op.Detached?)
    && s.threads[t].load.NoLoad?
  }

  /** Thread state `th` is inside an operation on storage `a`. */
  predicate Uses(th: ThreadState, a: nat) {
    || (th.load.Loading? && th.load.a == a)
    || ((th.op.Pay? || th.op.CasLoad? || th.op.CasTry? || th.op.CasDropPay? || th.op.CasDropDec? || th.op.CasMiss?)
        && th.op.a == a)
  }

  function DoLoadFrom(s: State, t: nat, a: nat): State
    requires IsReady(s, t) && Usable(s, a)
  {
    s.(threads := s.threads[t := ThreadState(NewLoad(s, a, false), UserLoad)])
  }

  /** `ArcSwapAny::swap`, up to and including the exchange of the pointer. */
  function DoSwapIn(s: State, t: nat, a: nat, c: nat): State
    requires IsFree(s, t) && Usable(s, a) && UserOwns(s, c)
  {
    Install(s, t, a, s.book.claims[c].ptr, c, None, RetOld(Some(s.book.claims[c].ptr)))
  }

  function DoCompareAndSwap(s: State, t: nat, a: nat, cur: Ptr, c: nat): State
    requires IsReady(s, t) && Usable(s, a) && UserOwns(s, c)
  {
    s.(threads := s.threads[t := ThreadState(NewLoad(s, a, false), CasLoad(a, cur, c, s.book.claims[c].ptr))],
       book := Move(s.book, c, Thread(t, NewVal)))
  }

  /** The end of a storage: its destructor, or `ArcSwapAny::into_inner`. */
  function DoTakeOut(s: State, t: nat, a: nat, destroy: bool): State
    requires IsFree(s, t) && Usable(s, a)
  {
    var st := s.storages[a];
    SetOp(s, t, Pay(a, st.ptr, Newest(s, a), st.claim, if destroy then Destroy else RetOld(None), FirstPc(s, t)))
      .(storages := s.storages[a := st.(alive := false)], book := Move(s.book, st.claim, Thread(t, Val)))
  }

  function DoNewStorage(s: State, c: nat, fast: bool): State
    requires UserOwns(s, c)
  {
    var p := s.book.claims[c].ptr;
    s.(storages := s.storages + [Storage(true, fast, p, c, [Write(p, None)])],
       book := Move(s.book, c, Cell(|s.storages|)))
  }

  /**
   Guards and handles move freely between threads, so their operations belong to no thread. Dropping
   a guard is `ReturnDebt`, then `Release` if the debt had been paid; `into_inner` is `Clone` first.
   */
  datatype Step =
    | Run(t: nat)
    | SpuriousFail(t: nat)
    | LoadFrom(t: nat, a: nat)
    | SwapIn(t: nat, a: nat, c: nat)
    | CompareAndSwap(t: nat, a: nat, cur: Ptr, c: nat)
    | TakeOut(t: nat, a: nat, destroy: bool)
    | NewStorage(c: nat, fast: bool)
    | NewObject
    | Clone(c: nat)
    | ReturnDebt(c: nat)
    | Release(c: nat)

  /** Whether thread `t` is in the middle of something. */
  predicate Busy(s: State, t: nat) {
    t < |s.threads| && t < |s.nodes| && !(s.threads[t].op.Ready? && s.threads[t].load.NoLoad?)
  }

  ghost predicate CanRun(s: State, t: nat) {
    && Busy(s, t)
    && if s.threads[t].load.Loading? then CanLoad(s, t)
       else if Unattached(s.threads[t].op) then true
       else if s.threads[t].op.Pay? then CanPay(s, t)
       else CanCas(s, t)
  }

  ghost function RunThread(s: State, t: nat): State
    requires CanRun(s, t)
  {
    if s.threads[t].load.Loading? then RunLoad(s, t)
    else if Unattached(s.threads[t].op) then DoAttach(s, t, false)
    else if s.threads[t].op.Pay? then RunPay(s, t)
    else RunCas(s, t)
  }

  /** About to exchange the head of the list. */
  predicate Linking(s: State, t: nat) {
    && t < |s.threads| && s.threads[t].load.NoLoad?
    && (s.threads[t].op.Attaching? || (s.threads[t].op.Pay? && s.threads[t].op.pc.PayLink?))
  }

  ghost predicate Enabled(s: State, step: Step) {
    match step
    case Run(t) => CanRun(s, t)
    case SpuriousFail(t) => (InCas(s, t) && s.threads[t].op.CasTry?) || Linking(s, t)
    case LoadFrom(t, a) => IsReady(s, t) && Usable(s, a)
    case SwapIn(t, a, c) => IsFree(s, t) && Usable(s, a) && UserOwns(s, c)
    case CompareAndSwap(t, a, cur, c) => IsReady(s, t) && Usable(s, a) && UserOwns(s, c)
    // The borrow checker grants exclusive access: nobody is inside an operation on `a`.
    case TakeOut(t, a, _) => IsFree(s, t) && Usable(s, a) && forall u :: 0 <= u < |s.threads| ==> !Uses(s.threads[u], a)
    case NewStorage(c, _) => UserOwns(s, c)
    case NewObject => true
    case Clone(c) => UserHas(s, c)
    case ReturnDebt(c) => UserHas(s, c) && s.book.claims[c].kind.Debt?
    case Release(c) => UserOwns(s, c)
  }

  ghost function Next(s: State, step: Step): State
    requires Enabled(s, step)
  {
    match step
    case Run(t) => RunThread(s, t)
    case SpuriousFail(t) => if Linking(s, t) then DoAttach(s, t, true) else DoCasFail(s, t)
    case LoadFrom(t, a) => DoLoadFrom(s, t, a)
    case SwapIn(t, a, c) => DoSwapIn(s, t, a, c)
    case CompareAndSwap(t, a, cur, c) => DoCompareAndSwap(s, t, a, cur, c)
    case TakeOut(t, a, destroy) => DoTakeOut(s, t, a, destroy)
    case NewStorage(c, fast) => DoNewStorage(s, c, fast)
    case NewObject => s.(book := Alloc(s.book, User))
    case Clone(c) => s.(book := Inc(s.book, s.book.claims[c].ptr, User))
    case ReturnDebt(c) => s.(book := PayOwn(s.book, c))
    case Release(c) => s.(book := Dec(s.book, c))
  }

  /** The start: `n` threads without nodes, no objects, no storages. */
  ghost predicate Init(s: State) {
    && |s.nodes| == |s.threads| && |s.envs| == |s.threads|
    && s.book == Book([], s.book.slots, [])
    && (forall n: nat, i: nat :: n < |s.threads| && i <= HELPING ==> SlotId(n, i) in s.book.slots)
    && (forall x :: x in s.book.slots ==> s.book.slots[x].val.None? && x.node < |s.threads| && x.idx <= HELPING)
    && (forall n :: 0 <= n < |s.nodes| ==> s.nodes[n] == Node(Idle, 0, n, 0, 0, 0))
    && (forall t :: 0 <= t < |s.threads| ==> s.threads[t] == ThreadState(NoLoad, Detached))
    && s.storages == [] && s.list == [] && s.events == []
  }

  /** Step `i` leads from state `i` to the next. */
  ghost predicate StepAt(run: seq<State>, steps: seq<Step>, i: nat)
    requires |run| == |steps| + 1 && i < |steps|
  {
    Enabled(run[i], steps[i]) && run[i + 1] == Next(run[i], steps[i])
  }

  /** `run` is a run of the machine under the schedule `steps`. */
  ghost predicate IsRun(run: seq<State>, steps: seq<Step>) {
    && |run| == |steps| + 1 && Init(run[0])
    && forall i :: 0 <= i < |steps| ==> StepAt(run, steps, i)
  }
}
