/**
 The atomic register that storages provide, for what is built on top of it: the read-copy-update loop
 and the cache. Other threads act between any two atomic operations; what they do is a parameter.
 */
module Register {
  import opened Ledger

  /** A storage: the objects allocated so far, with their contents, and all pointers it has had. */
  class Register<V> {
    var objs: seq<V>
    var log: seq<Ptr>

    ghost predicate Valid()
      reads this
    {
      |log| > 0 && forall i :: 0 <= i < |log| ==> log[i] < |objs|
    }

    constructor (v: V)
      ensures Valid() && objs == [v] && log == [0]
    {
      objs := [v];
      log := [0];
    }

    /** Other threads allocate objects with the contents `made` and store `writes`. */
    method Interfere(made: seq<V>, writes: seq<Ptr>)
      requires Valid() && forall i :: 0 <= i < |writes| ==> writes[i] < |objs| + |made|
      modifies this
      ensures Valid() && objs == old(objs) + made && log == old(log) + writes
    {
      objs := objs + made;
      log := log + writes;
    }

    method Alloc(v: V) returns (p: Ptr)
      requires Valid()
      modifies this`objs
      ensures Valid() && p == |old(objs)| && objs == old(objs) + [v]
    {
      p := |objs|;
      objs := objs + [v];
    }

    method Current() returns (p: Ptr)
      requires Valid()
      ensures p == log[|log| - 1]
    {
      p := log[|log| - 1];
    }

    /** `compare_and_swap`: the returned pointer is `cur` exactly if `neu` went in. */
    method CompareAndSwap(cur: Ptr, neu: Ptr) returns (prev: Ptr)
      requires Valid() && neu < |objs|
      modifies this`log
      ensures Valid() && prev == old(log)[|old(log)| - 1]
      ensures log == if prev == cur then old(log) + [neu] else old(log)
    {
      prev := log[|log| - 1];
      if prev == cur {
        log := log + [neu];
      }
    }
  }

  /** What the other threads do before one attempt. */
  datatype Noise<V> = Noise(made: seq<V>, writes: seq<Ptr>)

  /** From round `k` on, the writes refer to objects that exist by then; each round of the caller makes one, too. */
  ghost predicate Possible<V>(objs: nat, noise: seq<Noise<V>>, k: nat)
    decreases |noise| - k
  {
    k >= |noise| ||
    ((forall i :: 0 <= i < |noise[k].writes| ==> noise[k].writes[i] < objs + |noise[k].made|)
     && Possible(objs + |noise[k].made| + 1, noise, k + 1))
  }

  /** The writes of the first `n` rounds. */
  function AllWrites<V>(noise: seq<Noise<V>>, n: nat): seq<Ptr>
    requires n <= |noise|
  {
    if n == 0 then [] else AllWrites(noise, n - 1) + noise[n - 1].writes
  }

  /** The other threads' next round, if they have one. */
  method Disturb<V>(reg: Register<V>, noise: seq<Noise<V>>, k: nat) returns (k': nat)
    requires reg.Valid() && k <= |noise| && Possible(|reg.objs|, noise, k)
    modifies reg
    ensures reg.Valid() && old(reg.objs) <= reg.objs
    ensures if k == |noise| then k' == k && reg.log == old(reg.log) && reg.objs == old(reg.objs)
      else k' == k + 1 && reg.log == old(reg.log) + noise[k].writes && Possible(|reg.objs| + 1, noise, k')
  {
    k' := k;
    if k < |noise| {
      reg.Interfere(noise[k].made, noise[k].writes);
      k' := k + 1;
    }
  }

  /** What the others store in round `k`. */
  function Round<V>(noise: seq<Noise<V>>, k: nat): seq<Ptr> {
    if k < |noise| then noise[k].writes else []
  }

  function Last(log: seq<Ptr>): Ptr
    requires |log| > 0
  {
    log[|log| - 1]
  }

  /** One round of the loop: compute the new value, then try to exchange it for `cur`. */
  method Attempt<V>(reg: Register<V>, f: V -> V, cur: Ptr, noise: seq<Noise<V>>, k: nat) returns (prev: Ptr, k': nat)
    requires reg.Valid() && k <= |noise| && Possible(|reg.objs| + 1, noise, k) && cur < |reg.objs|
    modifies reg
    ensures reg.Valid() && prev < |reg.objs| && cur < |reg.objs|
    ensures k' == (if k < |noise| then k + 1 else k) && Possible(|reg.objs| + 1, noise, k')
    ensures prev == Last(old(reg.log) + Round(noise, k))
    ensures prev != cur ==> reg.log == old(reg.log) + Round(noise, k)
    ensures prev == cur ==>
      reg.log == old(reg.log) + Round(noise, k) + [Last(reg.log)] && reg.objs[Last(reg.log)] == f(reg.objs[cur])
  {
    var neu := reg.Alloc(f(reg.objs[cur]));
    k' := Disturb(reg, noise, k);
    assert reg.log == old(reg.log) + Round(noise, k);
    prev := reg.CompareAndSwap(cur, neu);
  }

  /** The log of a register that began with `start`, after `k` rounds of noise. */
  ghost function Disturbed<V>(start: seq<Ptr>, noise: seq<Noise<V>>, k: nat): seq<Ptr>
    requires k <= |noise|
  {
    start + AllWrites(noise, k)
  }

  lemma NextRound<V>(start: seq<Ptr>, noise: seq<Noise<V>>, k: nat)
    requires k <= |noise|
    ensures Disturbed(start, noise, k) + Round(noise, k) == Disturbed(start, noise, if k < |noise| then k + 1 else k)
  {
  }

  /**
   `ArcSwapAny::rcu` with interference before each of its exchanges: the new content is `f` of exactly
   the content it replaces, whatever the others have stored meanwhile, and nothing they stored is lost.
   */
  method Rcu<V>(reg: Register<V>, f: V -> V, noise: seq<Noise<V>>) returns (prev: Ptr, used: nat)
    requires reg.Valid() && Possible(|reg.objs| + 1, noise, 0)
    modifies reg
    ensures reg.Valid() && used <= |noise| && |reg.log| >= 2 && prev < |reg.objs|
    ensures reg.log == Disturbed(old(reg.log), noise, used) + [Last(reg.log)]
    ensures prev == Last(reg.log[..|reg.log| - 1]) && reg.objs[Last(reg.log)] == f(reg.objs[prev])
  {
    var cur: Ptr := reg.Current();
    used := 0;
    ghost var start := reg.log;
    while true
      invariant reg.Valid() && cur < |reg.objs| && used <= |noise|
      invariant reg.log == Disturbed(start, noise, used)
      invariant used == |noise| ==> cur == Last(reg.log)
      invariant Possible(|reg.objs| + 1, noise, used)
      decreases |noise| - used
    {
      NextRound(start, noise, used);
      ghost var before := reg.log + Round(noise, used);
      prev, used := Attempt(reg, f, cur, noise, used);
      if prev == cur {
        assert reg.log[..|reg.log| - 1] == before;
        return;
      }
      cur := prev;
    }
  }

  /** `cache::Cache`: a storage and a pointer the cache owns. */
  class Cache<V> {
    const reg: Register<V>
    var cached: Ptr

    constructor (r: Register<V>)
      requires r.Valid()
      ensures reg == r && cached == r.log[|r.log| - 1]
    {
      reg := r;
      cached := r.log[|r.log| - 1];
    }

    /**
     `Cache::load` while others act before the check and before the reload: it returns, and keeps, a value that the
     storage had during the call; a reload happens exactly if the cached pointer is not the current one.
     */
    method Load(before: Noise<V>, between: Noise<V>) returns (p: Ptr, ghost at: nat)
      requires reg.Valid()
      requires forall i :: 0 <= i < |before.writes| ==> before.writes[i] < |reg.objs| + |before.made|
      requires forall i :: 0 <= i < |between.writes| ==> between.writes[i] < |reg.objs| + |before.made| + |between.made|
      modifies this`cached, reg
      ensures reg.Valid() && cached == p
      ensures |old(reg.log)| - 1 <= at < |reg.log| && reg.log[at] == p
      ensures reg.log == old(reg.log) + before.writes +
        (if old(cached) == Last(old(reg.log) + before.writes) then [] else between.writes)
      ensures p == if old(cached) == Last(old(reg.log) + before.writes) then old(cached) else Last(reg.log)
    {
      reg.Interfere(before.made, before.writes);
      var shared := reg.Current();
      at := |reg.log| - 1;
      if cached != shared {
        reg.Interfere(between.made, between.writes);
        at := |reg.log| - 1;
        cached := reg.Current();
      }
      p := cached;
    }
  }
}
