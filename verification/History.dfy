/**
 What returned calls can say about the past of a storage: every load is linearizable, loads of one
 thread do not go back, exchanges return what they replaced, and a writer that has left `help` on a
 node leaves no transaction behind that was published before its exchange.
 */
module History {
  import opened Ledger
  import opened Machine
  import opened Protocol
  import opened Backing

  /** A compare-exchange has replaced exactly the value it expected. */
  ghost predicate LogOk(log: seq<Write>) {
    forall i :: 0 <= i < |log| && log[i].expected.Some? ==> i > 0 && log[i - 1].ptr == log[i].expected.value
  }

  ghost predicate LogsOk(s: State) {
    forall a :: 0 <= a < |s.storages| ==> LogOk(s.storages[a].log)
  }

  /** The entry after `at` is `w`: it replaced entry `at`. */
  ghost predicate Follows(s: State, a: nat, at: nat, w: Write) {
    a < |s.storages| && at + 1 < |s.storages[a].log| && s.storages[a].log[at + 1] == w
  }

  ghost predicate EventOk(s: State, e: Event) {
    match e
    case Loaded(t, a, start, lin, p, end) => InLog(s, a, start, lin, p) && lin <= end < |s.storages[a].log|
    case SwapReturned(t, a, at, p, put) => InLog(s, a, 0, at, p) && (put.Some? ==>
      Follows(s, a, at, Write(put.value, None)))
    case CasReturned(t, a, cur, neu, p, at) =>
      && (at.Some? <==> p == cur)
      && (at.Some? ==> InLog(s, a, 0, at.value, cur) && Follows(s, a, at.value, Write(neu, Some(cur))))
  }

  ghost predicate SameReader(e: Event, t: nat, a: nat) {
    e.Loaded? && e.t == t && e.a == a
  }

  ghost predicate EventsOk(s: State) {
    && (forall i :: 0 <= i < |s.events| ==> EventOk(s, s.events[i]))
    && (forall i, j ::
      (0 <= i < j < |s.events| && s.events[j].Loaded? && SameReader(s.events[i], s.events[j].t, s.events[j].a))
      ==> s.events[i].end <= s.events[j].start)
    && (forall t, i ::
      (0 <= t < |s.threads| && 0 <= i < |s.events| && s.threads[t].load.Loading?
       && SameReader(s.events[i], t, s.threads[t].load.a))
      ==> s.events[i].end <= s.threads[t].load.start)
  }

  ghost predicate WriterOk(s: State, t: nat)
    requires t < |s.threads|
  {
    var o := s.threads[t].op;
    && (o.Pay? ==>
      && InLog(s, o.a, 0, o.at, o.gone) && (s.storages[o.a].alive ==> o.at + 1 < |s.storages[o.a].log|)
      && (o.after.RetOld? && o.after.put.Some? ==> Follows(s, o.a, o.at, Write(o.after.put.value, None)))
      && (o.after.RetGuard? ==> o.after.cur == o.gone && Follows(s, o.a, o.at, Write(o.after.neu, Some(o.gone)))))
    && (o.CasTry? ==> InLog(s, o.a, 0, o.lin, o.cur))
    && (o.CasMiss? ==> o.gptr != o.cur && InLog(s, o.a, 0, o.lin, o.gptr))
  }

  ghost predicate WritersOk(s: State) {
    forall t :: 0 <= t < |s.threads| ==> WriterOk(s, t)
  }

  /** If writer `w` is through with `help` on node `n`, a transaction open there is younger than its exchange. */
  ghost predicate Younger(s: State, w: nat, n: nat)
    requires w < |s.threads|
  {
    var o := s.threads[w].op;
    o.Pay? && OpenTx(s, n) && s.threads[n].load.a == o.a && !Unhelped(o, n) ==> o.at < s.nodes[n].since
  }

  ghost predicate NoneLeftBehind(s: State) {
    forall w: nat, n: nat :: w < |s.threads| ==> Younger(s, w, n)
  }

  // ---- Steps ----

  ghost predicate LogsGrow(s: State, s': State) {
    |s.storages| <= |s'.storages| && forall a :: 0 <= a < |s.storages| ==> s.storages[a].log <= s'.storages[a].log
  }

  lemma EventKept(s: State, s': State, e: Event)
    requires EventOk(s, e) && LogsGrow(s, s')
    ensures EventOk(s', e)
  {
  }

  /** No call returns a load, and thread `t` at most starts one. */
  lemma QuietEvents(s: State, s': State, t: nat)
    requires Sane(s) && EventsOk(s) && LogsGrow(s, s') && SameThreads(s, s', t)
    requires s.events <= s'.events && |s'.events| <= |s.events| + 1
    requires |s'.events| == |s.events| + 1 ==> !s'.events[|s.events|].Loaded? && EventOk(s', s'.events[|s.events|])
    requires t < |s.threads| && s'.threads[t].load.Loading? ==> var l, l' := s.threads[t].load, s'.threads[t].load;
      (l.Loading? && l'.a == l.a && l'.start == l.start) || (l'.a < |s.storages| && l'.start == Newest(s, l'.a))
    ensures EventsOk(s')
  {
    forall i | 0 <= i < |s'.events| ensures EventOk(s', s'.events[i]) {
      if i < |s.events| { EventKept(s, s', s.events[i]); }
    }
    forall u, i | 0 <= u < |s'.threads| && 0 <= i < |s'.events| && s'.threads[u].load.Loading?
      && SameReader(s'.events[i], u, s'.threads[u].load.a) ensures s'.events[i].end <= s'.threads[u].load.start
    {
      assert s'.events[i] == s.events[i] && EventOk(s, s.events[i]);
    }
  }

  /** A load returns: its value was in the storage between its start and now. */
  lemma DeliverEvents(s: State, t: nat)
    requires Sane(s) && CanLoad(s, t) && s.threads[t].load.pc.Done? && LoadOk(s, t) && EventsOk(s)
    ensures EventsOk(DoDeliver(s, t))
  {
    var s', e, k := DoDeliver(s, t), LoadEvent(s, t), |s.events|;
    assert s'.events == s.events + [e] && s'.storages == s.storages && EventOk(s', e);
    assert SameThreads(s, s', t) && s'.threads[t].load.NoLoad?;
    forall i | 0 <= i < |s'.events| ensures EventOk(s', s'.events[i]) {
      if i < k { EventKept(s, s', s.events[i]); }
    }
    forall i, j | 0 <= i < j < |s'.events| && s'.events[j].Loaded?
      && SameReader(s'.events[i], s'.events[j].t, s'.events[j].a)
      ensures s'.events[i].end <= s'.events[j].start
    {
      if j == k { assert SameReader(s.events[i], t, s.threads[t].load.a); }
    }
    forall u, i | 0 <= u < |s'.threads| && 0 <= i < |s'.events| && s'.threads[u].load.Loading?
      && SameReader(s'.events[i], u, s'.threads[u].load.a) ensures s'.events[i].end <= s'.threads[u].load.start
    {
      assert u != t && i < k;
      assert SameReader(s.events[i], u, s.threads[u].load.a);
    }
  }

  lemma OthersWrite(s: State, s': State, t: nat)
    requires WritersOk(s) && LogsGrow(s, s') && SameThreads(s, s', t) && (t < |s.threads| ==> WriterOk(s', t))
    requires forall a :: 0 <= a < |s.storages| && s'.storages[a].alive ==> s.storages[a].alive
    ensures WritersOk(s')
  {
    forall u | 0 <= u < |s'.threads| ensures WriterOk(s', u) {
      if u != t { assert WriterOk(s, u); }
    }
  }

  lemma NoneLeftStep(s: State, s': State, t: nat)
    requires NoneLeftBehind(s) && WritersOk(s) && Sane(s) && Frame(s, s', t) && (t < |s.threads| ==> HelpKept(s, s', t))
    requires t < |s.threads| && s'.threads[t].op.Pay? ==> var o, o' := s.threads[t].op, s'.threads[t].op;
      Starts(o'.pc) || (o.Pay? && o'.a == o.a && o'.at == o.at && o'.gone == o.gone)
    requires OpenTx(s', t) ==> var l, l' := s.threads[t].load, s'.threads[t].load;
      || (OpenTx(s, t) && l'.a == l.a && s'.nodes[t].since == s.nodes[t].since)
      || (l'.a < |s.storages| && s.storages[l'.a].alive && s'.nodes[t].since == Newest(s, l'.a))
    ensures NoneLeftBehind(s')
  {
    forall w: nat, n: nat | w < |s'.threads| ensures Younger(s', w, n) {
      assert Younger(s, w, n);
      var o' := s'.threads[w].op;
      if o'.Pay? && OpenTx(s', n) && s'.threads[n].load.a == o'.a && !Unhelped(o', n) {
        assert n != t ==> s'.threads[n] == s.threads[n] && s'.nodes[n] == s.nodes[n];
        assert WriterOk(s, w);
      }
    }
  }

  // ---- What each kind of step contributes ----

  ghost predicate SamePayer(o: Op, o': Op) {
    o'.Pay? ==> Starts(o'.pc) || (o.Pay? && o'.a == o.a && o'.at == o.at && o'.gone == o.gone)
  }

  ghost predicate SinceOk(s: State, s': State, t: nat)
    requires Sane(s) && t < |s.threads|
  {
    OpenTx(s', t) ==> var l, l' := s.threads[t].load, s'.threads[t].load;
      || (OpenTx(s, t) && l'.a == l.a && s'.nodes[t].since == s.nodes[t].since)
      || (l'.a < |s.storages| && s.storages[l'.a].alive && s'.nodes[t].since == Newest(s, l'.a))
  }

  lemma LoadStepHistory(s: State, t: nat)
    requires Sane(s) && CanLoad(s, t) && LoadOk(s, t) && ShapeOk(s, t) && WriterOk(s, t)
    ensures var s' := RunLoad(s, t);
      |s'.threads| == |s.threads| && s'.storages == s.storages
      && WriterOk(s', t) && SamePayer(s.threads[t].op, s'.threads[t].op)
  {
    if !s.threads[t].load.pc.Done? { LoadStepMoves(s, t); }
  }

  lemma LoadStepSince(s: State, t: nat)
    requires Sane(s) && CanLoad(s, t) && LoadOk(s, t) && ControlOk(s, t)
    ensures SinceOk(s, RunLoad(s, t), t)
  {
  }

  lemma LoadStepEvents(s: State, t: nat)
    requires Sane(s) && CanLoad(s, t) && LoadOk(s, t) && EventsOk(s)
    ensures EventsOk(RunLoad(s, t))
  {
    if s.threads[t].load.pc.Done? {
      DeliverEvents(s, t);
    } else {
      LoadStepMoves(s, t);
      QuietEvents(s, RunLoad(s, t), t);
    }
  }

  lemma HelpStepHistory(s: State, t: nat)
    requires Sane(s) && CanHelp(s, t) && s.threads[t].load.NoLoad? && WriterOk(s, t) && ControlOk(s, t)
    ensures var s' := RunHelp(s, t);
      |s'.threads| == |s.threads| && s'.storages == s.storages && s'.events == s.events
      && WriterOk(s', t) && SamePayer(s.threads[t].op, s'.threads[t].op) && !OpenTx(s', t)
  {
  }

  lemma HelpStepEvents(s: State, t: nat)
    requires Sane(s) && CanHelp(s, t) && s.threads[t].load.NoLoad? && EventsOk(s)
    ensures EventsOk(RunHelp(s, t))
  {
    QuietEvents(s, RunHelp(s, t), t);
  }

  lemma PayStepHistory(s: State, t: nat)
    requires Sane(s) && CanPay(s, t) && s.threads[t].load.NoLoad? && !s.threads[t].op.pc.Helping? && WriterOk(s, t)
    ensures var s' := RunPay(s, t);
      |s'.threads| == |s.threads| && s'.storages == s.storages
      && WriterOk(s', t) && SamePayer(s.threads[t].op, s'.threads[t].op) && !OpenTx(s', t)
  {
  }

  lemma PayStepEvents(s: State, t: nat)
    requires Sane(s) && CanPay(s, t) && s.threads[t].load.NoLoad? && !s.threads[t].op.pc.Helping? && WriterOk(s, t)
    requires EventsOk(s)
    requires s.threads[t].op.pc.PayRet? ==> s.book.claims[s.threads[t].op.val].ptr == s.threads[t].op.gone
    requires s.threads[t].op.pc.PayRet? && s.threads[t].op.after.RetGuard? ==>
      s.book.claims[s.threads[t].op.after.guard].ptr == s.threads[t].op.gone
    ensures EventsOk(RunPay(s, t))
  {
    QuietEvents(s, RunPay(s, t), t);
  }

  lemma InstallLogs(s: State, t: nat, a: nat, p: Ptr, c: nat, expected: Option<Ptr>, after: After)
    requires Sane(s) && LogsOk(s) && t < |s.threads| && Usable(s, a) && c < |s.book.claims|
    requires expected.Some? ==> s.storages[a].ptr == expected.value
    ensures LogsOk(Install(s, t, a, p, c, expected, after)) && LogsGrow(s, Install(s, t, a, p, c, expected, after))
  {
  }

  lemma CasStepHistory(s: State, t: nat)
    requires Sane(s) && LogsOk(s) && CanCas(s, t) && s.threads[t].load.NoLoad? && WriterOk(s, t) && ControlOk(s, t)
    ensures var s' := RunCas(s, t);
      |s'.threads| == |s.threads| && LogsOk(s') && LogsGrow(s, s')
      && WriterOk(s', t) && SamePayer(s.threads[t].op, s'.threads[t].op) && !OpenTx(s', t)
  {
    var o := s.threads[t].op;
    if o.CasTry? && s.storages[o.a].ptr == o.cur {
      InstallLogs(s, t, o.a, o.nptr, o.neu, Some(o.cur), RetGuard(o.guard, o.cur, o.nptr));
    }
  }

  lemma CasStepEvents(s: State, t: nat)
    requires Sane(s) && CanCas(s, t) && s.threads[t].load.NoLoad? && WriterOk(s, t) && EventsOk(s)
    requires s.threads[t].op.CasMiss? ==> s.book.claims[s.threads[t].op.guard].ptr == s.threads[t].op.gptr
    ensures EventsOk(RunCas(s, t))
  {
    QuietEvents(s, RunCas(s, t), t);
  }

  lemma BeginHistory(s: State, step: Step)
    requires Sane(s) && LogsOk(s) && Enabled(s, step)
    requires (step.LoadFrom? || step.SwapIn? || step.CompareAndSwap? || step.TakeOut?)
    ensures var s', t := Next(s, step), step.t;
      && |s'.threads| == |s.threads| && LogsOk(s') && LogsGrow(s, s')
      && WriterOk(s', t) && SamePayer(s.threads[t].op, s'.threads[t].op)
  {
    if step.SwapIn? {
      var p := s.book.claims[step.c].ptr;
      InstallLogs(s, step.t, step.a, p, step.c, None, RetOld(Some(p)));
    }
  }

  lemma BeginEvents(s: State, step: Step)
    requires Sane(s) && Enabled(s, step) && (step.LoadFrom? || step.SwapIn? || step.CompareAndSwap? || step.TakeOut?)
    requires EventsOk(s)
    ensures EventsOk(Next(s, step))
  {
    QuietEvents(s, Next(s, step), step.t);
  }
}
