/**
 The exchange of handover envelopes. Counting envelopes in flight, each node always has exactly one
 envelope of its own, so nobody writes into an envelope that somebody else may still read.
 */
module Envelopes {
  import opened Machine
  import opened Protocol

  ghost predicate EnvelopesOk(s: State) {
    && |s.nodes| == |s.threads| && |s.envs| == |s.threads|
    && (forall n :: 0 <= n < |s.threads| ==> Envelope(s, n) < |s.envs|)
    && (forall m, n :: 0 <= m < n < |s.threads| ==> Envelope(s, m) != Envelope(s, n))
  }

  ghost predicate SameEnvelopes(s: State, s': State) {
    && |s.nodes| == |s.threads| && |s'.threads| == |s.threads| && |s'.nodes| == |s.threads| && |s'.envs| == |s.envs|
    && forall n :: 0 <= n < |s.threads| ==> Envelope(s', n) == Envelope(s, n)
  }

  lemma SameOk(s: State, s': State)
    requires EnvelopesOk(s) && SameEnvelopes(s, s')
    ensures EnvelopesOk(s')
  {
    forall m, n | 0 <= m < n < |s'.threads| ensures Envelope(s', m) != Envelope(s', n) {
      assert Envelope(s, m) != Envelope(s, n);
    }
  }

  lemma FastStepEnvelope(s: State, t: nat)
    requires Sane(s) && CanLoad(s, t) && ShapeOk(s, t) && ControlOk(s, t) && FastPc(s.threads[t].load.pc)
    ensures RunLoad(s, t).nodes[t].control == s.nodes[t].control && RunLoad(s, t).nodes[t].offer == s.nodes[t].offer
    ensures var pc := RunLoad(s, t).threads[t].load.pc; !pc.TakeEnv? && !pc.StoreOffer?
  {
    FastStepMoves(s, t);
  }

  lemma FallbackStepEnvelope(s: State, t: nat)
    requires Sane(s) && CanLoad(s, t) && ShapeOk(s, t) && ControlOk(s, t)
    requires !FastPc(s.threads[t].load.pc) && !s.threads[t].load.pc.Done?
    ensures |RunLoad(s, t).threads| == |s.threads| == |RunLoad(s, t).nodes|
    ensures Envelope(RunLoad(s, t), t) == Envelope(s, t)
  {
    LoadStepMoves(s, t);
  }

  lemma LoadStepSame(s: State, t: nat)
    requires Sane(s) && CanLoad(s, t) && ShapeOk(s, t) && ControlOk(s, t)
    ensures SameEnvelopes(s, RunLoad(s, t))
  {
    if s.threads[t].load.pc.Done? {
    } else {
      LoadStepMoves(s, t);
      if FastPc(s.threads[t].load.pc) { FastStepEnvelope(s, t); } else { FallbackStepEnvelope(s, t); }
    }
  }

  lemma HelpStepSame(s: State, t: nat)
    requires Sane(s) && CanHelp(s, t) && ControlOk(s, t) && s.threads[t].load.NoLoad?
    requires !(s.threads[t].op.pc.h.HCas? && s.nodes[Who(s, t)].control == Gen(s.threads[t].op.pc.h.g))
    ensures SameEnvelopes(s, RunHelp(s, t))
  {
  }

  /** A successful hand-over exchanges the envelopes of the two nodes. */
  lemma HandOver(s: State, t: nat)
    requires Sane(s) && EnvelopesOk(s) && CanHelp(s, t) && ThreadOk(s, t) && s.threads[t].load.NoLoad?
    requires ThreadOk(s, Who(s, t)) && s.threads[t].op.pc.h.HCas?
    requires s.nodes[Who(s, t)].control == Gen(s.threads[t].op.pc.h.g)
    ensures var s' := DoHCas(s, t); var n := Who(s, t);
      && EnvelopesOk(s') && n != t
      && Envelope(s', t) == Envelope(s, n) && Envelope(s', n) == Envelope(s, t)
  {
    var s', n := DoHCas(s, t), Who(s, t);
    assert Envelope(s', t) == Envelope(s, n) && Envelope(s', n) == Envelope(s, t);
    forall m | 0 <= m < |s.threads| && m != t && m != n ensures Envelope(s', m) == Envelope(s, m) {}
    forall i, j | 0 <= i < j < |s'.threads| ensures Envelope(s', i) != Envelope(s', j) {
      var i', j' := if i == t then n else if i == n then t else i, if j == t then n else if j == n then t else j;
      assert i' < j' || j' < i';
      assert Envelope(s, i') != Envelope(s, j');
    }
  }

  lemma OtherStepSame(s: State, s': State)
    requires |s.nodes| == |s.threads| && |s'.threads| == |s.threads| && s'.nodes == s.nodes && |s'.envs| == |s.envs|
    requires forall n :: 0 <= n < |s.threads| ==> var th, th' := s.threads[n], s'.threads[n];
      && (th.load.Loading? && (th.load.pc.TakeEnv? || th.load.pc.StoreOffer?) ==> th'.load == th.load)
      && (th'.load.Loading? && (th'.load.pc.TakeEnv? || th'.load.pc.StoreOffer?) ==> th'.load == th.load)
      && (th.op.Pay? && th.op.pc.Helping? && th.op.pc.h.HStore? ==> th'.op == th.op)
      && (th'.op.Pay? && th'.op.pc.Helping? && th'.op.pc.h.HStore? ==> th'.op == th.op)
    ensures SameEnvelopes(s, s')
  {
  }

  /** Only the envelope of the acting thread is ever written. */
  lemma FillKeeps(s: State, t: nat)
    requires Sane(s) && EnvelopesOk(s) && CanHelp(s, t) && s.threads[t].load.NoLoad? && ThreadOk(s, t)
    ensures forall u :: 0 <= u < |s.threads| && u != t ==> EnvKept(s, RunHelp(s, t), u)
  {
    var s' := RunHelp(s, t);
    forall u | 0 <= u < |s.threads| && u != t ensures EnvKept(s, s', u) {
      if s.threads[t].op.pc.h.HFill? {
        assert s.threads[t].op.pc.h.mine == Envelope(s, t);
        assert Envelope(s, u) != Envelope(s, t) by { if u < t {} else {} }
      }
    }
  }
}
