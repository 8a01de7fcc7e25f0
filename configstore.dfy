/**
 A model of the in-memory configuration store of the ocdb client.

 A configuration maps string keys to values of no particular schema, so the
 value type is left as a type parameter `V`. The store keeps one mapping for
 its lifetime; `Read` hands out a snapshot of it and `Write` merges a given
 configuration into it, overwriting on key collision and never removing a key.
 */
module ConfigStore {

  /** A configuration: string keys to values of an unconstrained type. */
  type Config<V> = map<string, V>

  /** The key-wise meaning of merging `c` into `before`: the keys are united,
      every key of `c` takes its value from `c`, and every other key keeps the
      value it had before. */
  ghost predicate IsUpdateOf<V>(after: Config<V>, before: Config<V>, c: Config<V>)
  {
    && after.Keys == before.Keys + c.Keys
    && (forall k :: k in c ==> after[k] == c[k])
    && (forall k :: k in before && k !in c ==> after[k] == before[k])
  }

  /** `before` updated by `c`, as a dictionary update does it: a union of the
      two mappings biased to the right. */
  function Updated<V>(before: Config<V>, c: Config<V>): (r: Config<V>)
    ensures IsUpdateOf(r, before, c)
  {
    before + c
  }

  /** The entries of `c` whose keys occur in `ks`; all of `c` when `ks`
      names every key of `c`. */
  function Restricted<V>(c: Config<V>, ks: seq<string>): (r: Config<V>)
    ensures (forall k :: k in c ==> k in ks) ==> r == c
  {
    map k | k in c && k in ks :: c[k]
  }

  /** A dictionary update performed one entry at a time: visit the keys `ks`
      in order and store the value `c` has for each. This is the reference
      against which the one-step merge `Updated` is proved. */
  function StoreEach<V>(before: Config<V>, c: Config<V>, ks: seq<string>): Config<V>
    requires forall k :: k in ks ==> k in c
    decreases |ks|
  {
    if ks == [] then before
    else StoreEach(before[ks[0] := c[ks[0]]], c, ks[1..])
  }

  /** Storing the entries for `ks` one by one merges in the part of `c` that
      `ks` names. */
  lemma {:induction false} StoreEachIsUpdate<V>(before: Config<V>, c: Config<V>, ks: seq<string>)
    requires forall k :: k in ks ==> k in c
    ensures StoreEach(before, c, ks) == Updated(before, Restricted(c, ks))
    decreases |ks|
  {
    if ks != [] {
      var k0, rest := ks[0], ks[1..];
      var stepped := before[k0 := c[k0]];
      StoreEachIsUpdate(stepped, c, rest);
      var lhs := Updated(stepped, Restricted(c, rest));
      var rhs := Updated(before, Restricted(c, ks));
      assert lhs.Keys == rhs.Keys;
      forall j | j in lhs.Keys
        ensures lhs[j] == rhs[j]
      {
        if j in rest {
        } else if j == k0 {
        } else {
          assert j !in ks;
        }
      }
    }
  }

  /** Merging all of `c` in one step is the same as storing its entries one
      by one, in whatever order the keys are visited. */
  lemma UpdatedIsStoreEach<V>(before: Config<V>, c: Config<V>, ks: seq<string>)
    requires forall k :: k in ks ==> k in c
    requires forall k :: k in c ==> k in ks
    ensures StoreEach(before, c, ks) == Updated(before, c)
  {
    StoreEachIsUpdate(before, c, ks);
  }

  /** The key-wise description fixes the result completely: a mapping meets
      it exactly when it is `Updated(before, c)`. */
  lemma UpdateCharacterised<V>(after: Config<V>, before: Config<V>, c: Config<V>)
    ensures IsUpdateOf(after, before, c) <==> after == Updated(before, c)
  {
  }

  /** Writing the same configuration twice leaves the state a single write
      leaves. */
  lemma UpdateIdempotent<V>(before: Config<V>, c: Config<V>)
    ensures Updated(Updated(before, c), c) == Updated(before, c)
  {
  }

  /** Writing an empty configuration changes nothing. */
  lemma UpdateEmpty<V>(before: Config<V>)
    ensures Updated(before, map[]) == before
  {
  }

  /** Two successive writes equal one write of the first configuration
      overridden by the second. */
  lemma UpdateCompose<V>(before: Config<V>, a: Config<V>, b: Config<V>)
    ensures Updated(Updated(before, a), b) == Updated(before, Updated(a, b))
  {
  }

  /** The in-memory store: one mutable mapping, merged into by `Write`. */
  class MemConfigStore<V> {
    var config: Config<V>

    /** The store starts out holding exactly the given entries. The entries
        arrive as keyword arguments, so none of them may be named `self`. */
    constructor (initial: Config<V>)
      requires "self" !in initial
      ensures config == initial
    {
      config := initial;
    }

    /** A snapshot of the current configuration; the state is not changed. */
    method Read() returns (r: Config<V>)
      ensures r == config
    {
      r := config;
    }

    /** Merges `c` into the stored configuration: keys of `c` are set or
        overwritten, every other key keeps its value, none is removed. */
    method Write(c: Config<V>)
      modifies this
      ensures config == Updated(old(config), c)
    {
      config := config + c;
    }
  }

  /** Two reads with nothing in between return equal snapshots, both equal to
      the stored configuration. */
  method ReadTwice<V>(store: MemConfigStore<V>) returns (r1: Config<V>, r2: Config<V>)
    ensures r1 == r2 == store.config
  {
    r1 := store.Read();
    r2 := store.Read();
  }

  /** An empty store written `{"a": 1}` and then `{"b": 2}` reads back
      `{"a": 1, "b": 2}`: writes merge rather than replace. */
  method MergeScenario() returns (r: Config<int>)
    ensures r == map["a" := 1, "b" := 2]
  {
    var store := new MemConfigStore<int>(map[]);
    store.Write(map["a" := 1]);
    store.Write(map["b" := 2]);
    r := store.Read();
  }

  /** A store holding `{"a": 1}` written `{"a": 2}` reads back `{"a": 2}`:
      on a key collision the written value wins. */
  method OverwriteScenario() returns (r: Config<int>)
    ensures r == map["a" := 2]
  {
    var store := new MemConfigStore<int>(map["a" := 1]);
    store.Write(map["a" := 2]);
    r := store.Read();
  }
}
