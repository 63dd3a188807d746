/** The `Singleton` metaclass: calling a class that uses it builds an instance the first
    time, stores it on the class, and hands the stored one back afterwards. The cache test
    is Python truthiness, so a stored instance that is falsy does not count as cached. */
module Singleton {
  import opened Wrappers

  /** An object the class can build: an identity, and whether it is truthy. */
  datatype Instance = Instance(handle: nat, truthy: bool)

  /** Whether `if cls._instance:` takes the cached branch. */
  predicate Cached(stored: Option<Instance>) {
    stored.Some? && stored.value.truthy
  }

  /** One call: the stored instance and the returned one afterwards. `built` is what the
      inherited `__call__` would construct with this call's arguments. */
  function Step(stored: Option<Instance>, built: Instance): (r: (Option<Instance>, Instance))
    ensures Cached(stored) ==> r == (stored, stored.value)
    ensures !Cached(stored) ==> r == (Some(built), built)
    ensures r.0 == Some(r.1)
  {
    if Cached(stored) then (stored, stored.value) else (Some(built), built)
  }

  /** The instances a sequence of calls returns, each call given what it would build. */
  function Results(stored: Option<Instance>, builds: seq<Instance>): (r: seq<Instance>)
    ensures |r| == |builds|
    decreases |builds|
  {
    if |builds| == 0 then []
    else
      var (next, out) := Step(stored, builds[0]);
      [out] + Results(next, builds[1..])
  }

  /** A class that uses the metaclass: the per-class `_instance` attribute. */
  class SingletonClass {
    var instance: Option<Instance>

    /** A class that has not been called yet: the lookup finds the metaclass's None. */
    constructor ()
      ensures instance == None
    {
      instance := None;
    }

    /** `Singleton.__call__`. */
    method Call(built: Instance) returns (r: Instance)
      modifies this
      ensures (instance, r) == Step(old(instance), built)
    {
      if instance.Some? && instance.value.truthy {
        return instance.value;
      }
      instance := Some(built);
      r := instance.value;
    }
  }

  /** Once a truthy instance is stored, every later call returns it, whatever it would
      have built. */
  lemma {:induction false} CachedStaysCached(stored: Option<Instance>, builds: seq<Instance>)
    requires Cached(stored)
    ensures forall i :: 0 <= i < |builds| ==> Results(stored, builds)[i] == stored.value
    decreases |builds|
  {
    if |builds| > 0 {
      CachedStaysCached(stored, builds[1..]);
      var r := Results(stored, builds);
      assert r == [stored.value] + Results(stored, builds[1..]);
      forall i | 0 <= i < |builds| ensures r[i] == stored.value {
        if i > 0 { assert r[i] == Results(stored, builds[1..])[i - 1]; }
      }
    }
  }

  /** On a class never called before, the first call builds, and every later call returns
      that same first instance, provided it is truthy. */
  lemma FirstInstanceReturnedAlways(builds: seq<Instance>)
    requires |builds| > 0 && builds[0].truthy
    ensures forall i :: 0 <= i < |builds| ==> Results(None, builds)[i] == builds[0]
  {
    var first := builds[0];
    CachedStaysCached(Some(first), builds[1..]);
    var r := Results(None, builds);
    assert r == [first] + Results(Some(first), builds[1..]);
    forall i | 0 <= i < |builds| ensures r[i] == first {
      if i > 0 { assert r[i] == Results(Some(first), builds[1..])[i - 1]; }
    }
  }

  /** A falsy instance is never taken from the cache: when every build is falsy, every call
      returns what it has just built. */
  lemma {:induction false} FalsyRebuiltEveryCall(stored: Option<Instance>, builds: seq<Instance>)
    requires !Cached(stored)
    requires forall i :: 0 <= i < |builds| ==> !builds[i].truthy
    ensures Results(stored, builds) == builds
    decreases |builds|
  {
    if |builds| > 0 {
      FalsyRebuiltEveryCall(Some(builds[0]), builds[1..]);
      assert builds == [builds[0]] + builds[1..];
    }
  }
}
