/**
 * Scopes of `src/environment.rs`, extended with the outer link the evaluator creates with
 * `Environment::new_with_outer` (src/evaluator.rs:129): `get` looks in the local store and
 * then outwards, `set` writes the local store and hands back what it replaced there.
 */
module Environments {
  import opened Wrappers
  import opened Objects

  /** `Environment::default()`: no bindings and no outer scope. */
  function Empty(): Env
  {
    Env(map[], None)
  }

  /** `Environment::new_with_outer`: an empty local store in front of `outer`. */
  function Enclosed(outer: Env): Env
  {
    Env(map[], Some(outer))
  }

  /** `get`: the innermost binding of `k`. */
  function Get(env: Env, k: string): Option<Object>
    decreases env
  {
    if k in env.store then Some(env.store[k])
    else if env.outer.Some? then Get(env.outer.value, k)
    else None
  }

  /** What `set` returns: the value `k` had in the local store, if any. */
  function Previous(env: Env, k: string): Option<Object>
  {
    if k in env.store then Some(env.store[k]) else None
  }

  /** The scope after `set(k, v)`. */
  function Bind(env: Env, k: string, v: Object): Env
  {
    env.(store := env.store[k := v])
  }

  // ---------------------------------------------------------------------------
  // What the store promises

  lemma {:induction false} GetAfterSet(env: Env, k: string, v: Object)
    ensures Get(Bind(env, k, v), k) == Some(v)
  {
  }

  lemma {:induction false} SetLeavesOthers(env: Env, k: string, v: Object, j: string)
    requires j != k
    ensures Get(Bind(env, k, v), j) == Get(env, j)
  {
  }

  lemma {:induction false} LastWriteWins(env: Env, k: string, v1: Object, v2: Object)
    ensures Bind(Bind(env, k, v1), k, v2) == Bind(env, k, v2)
  {
  }

  /** The value `set` hands back is the one a local `get` saw before, and none for a fresh name. */
  lemma {:induction false} SetReturnsPrevious(env: Env, k: string, v: Object)
    requires env.outer.None?
    ensures Previous(env, k) == Get(env, k)
    ensures Previous(Bind(env, k, v), k) == Some(v)
  {
  }

  lemma {:induction false} EmptyHasNothing(k: string)
    ensures Get(Empty(), k) == None
  {
  }

  /** A fresh inner scope sees exactly what its outer scope binds. */
  lemma {:induction false} EnclosedSeesOuter(outer: Env, k: string)
    ensures Get(Enclosed(outer), k) == Get(outer, k)
  {
  }

  /** A local binding hides the outer one and leaves the outer scope as it was. */
  lemma {:induction false} LocalShadows(outer: Env, k: string, v: Object)
    ensures Get(Bind(Enclosed(outer), k, v), k) == Some(v)
    ensures Bind(Enclosed(outer), k, v).outer == Some(outer)
  {
  }

  /**
   * The mutable scope of `src/environment.rs`: `store` is the hash map `set` inserts into,
   * and `outer` the scope `new_with_outer` links to.
   */
  class Environment {
    var store: map<string, Object>
    var outer: Option<Env>

    function Value(): Env
      reads this
    {
      Env(store, outer)
    }

    /** `Environment::default()`. */
    constructor ()
      ensures Value() == Empty()
    {
      store := map[];
      outer := None;
    }

    /** `Environment::new_with_outer`. */
    constructor WithOuter(o: Env)
      ensures Value() == Enclosed(o)
    {
      store := map[];
      outer := Some(o);
    }

    /** `get`: the local binding, else the outer scope's. */
    method Lookup(k: string) returns (r: Option<Object>)
      ensures r == Get(Value(), k)
    {
      if k in store {
        r := Some(store[k]);
      } else if outer.Some? {
        r := Get(outer.value, k);
      } else {
        r := None;
      }
    }

    /** `set`: insert into the local store, returning what was there. */
    method Set(k: string, v: Object) returns (previous: Option<Object>)
      modifies this
      ensures Value() == Bind(old(Value()), k, v)
      ensures previous == Previous(old(Value()), k)
    {
      previous := if k in store then Some(store[k]) else None;
      store := store[k := v];
    }
  }
}
