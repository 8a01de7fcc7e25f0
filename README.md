# In-memory configuration store of the ocdb client

The ocdb client keeps its settings in a configuration store: a mapping from
string keys to values of any JSON-representable kind, with two operations.
`read` returns the current configuration and `write` stores a given one. This
project models the in-memory store, `MemConfigStore`, in `configstore.dfy`
(module `ConfigStore`):

- The store is a class with one mutable field, `config: map<string, V>`.
  The constructor fills it with the initial entries.
- `Read` returns that map. A Dafny `map` is an immutable value, so the
  snapshot can never alias the store's state.
- `Write(c)` merges `c` into the field, like Python's `dict.update`.
  Keys of `c` are set or overwritten, every other key keeps its value, and
  no key is removed.

Values are a type parameter `V`, because the store enforces no schema.

Everything is stated about one pure function, `Updated(before, c)`. Its
contract is the key-wise meaning of the merge. Lemmas then prove:

- the key-wise description determines the result (`UpdateCharacterised`);
- the one-step map union equals storing the entries of `c` one at a time,
  in any visiting order (`StoreEachIsUpdate`, `UpdatedIsStoreEach`);
- writing is idempotent, writing nothing changes nothing, and two writes
  compose as one right-biased merge.

Two methods state the outcome of two concrete scenarios, and Dafny proves
it: writing
`{"a": 1}` and then `{"b": 2}` into an empty store, and overwriting `"a"`
in a store that holds `{"a": 1}`.

## Model

| member | source | states |
|---|---|---|
| ConfigStore.MemConfigStore.constructor | eocdb_client/configstore.py:25-26 | after construction the stored configuration is exactly the given entries; no entry may be keyed `self`, which the keyword-argument signature cannot take |
| ConfigStore.MemConfigStore.Read | eocdb_client/configstore.py:28-29 | the returned mapping equals the stored configuration; the method modifies nothing |
| ConfigStore.MemConfigStore.Write | eocdb_client/configstore.py:31-32 | the new configuration is the old one updated by `c`: keys united, keys of `c` take their values from `c`, all other keys keep their old values |
| ConfigStore.Updated | eocdb_client/configstore.py:32 | the merge `dict.update` performs: the key set is the union of both key sets, every key of `c` maps to its value in `c` (so `c` wins on collision), and every other key keeps its earlier value |
| ConfigStore.UpdateCharacterised | eocdb_client/configstore.py:32 | a mapping meets the key-wise description of an update exactly when it equals `Updated(before, c)`, in both directions |
| ConfigStore.StoreEachIsUpdate | eocdb_client/configstore.py:32 | storing the entries of `c` named by a key sequence one at a time equals merging the part of `c` that the sequence names |
| ConfigStore.UpdatedIsStoreEach | eocdb_client/configstore.py:32 | when the key sequence lists exactly the keys of `c`, entry-by-entry assignment and the one-step merge agree, whatever the order |
| ConfigStore.UpdateIdempotent | eocdb_client/configstore.py:32 | writing `c` twice leaves the same configuration as writing it once |
| ConfigStore.UpdateEmpty | eocdb_client/configstore.py:32 | writing an empty mapping leaves the configuration unchanged |
| ConfigStore.UpdateCompose | eocdb_client/configstore.py:32 | writing `a` and then `b` equals one write of `a` overridden by `b` |
| ConfigStore.ReadTwice | eocdb_client/configstore.py:28-29 | two consecutive reads return equal mappings, both equal to the stored configuration |
| ConfigStore.MergeScenario | eocdb_client/configstore.py:25-32 | an empty store written `{"a": 1}` and then `{"b": 2}` reads back `{"a": 1, "b": 2}` |
| ConfigStore.OverwriteScenario | eocdb_client/configstore.py:25-32 | a store holding `{"a": 1}` written `{"a": 2}` reads back `{"a": 2}` |

## Left out

- The abstract `ConfigStore` base class (eocdb_client/configstore.py:9-21) is not modelled as a trait. Its two methods carry no contract beyond their signatures, and `MemConfigStore` carries the behaviour. `ABCMeta` and `@abstractmethod` are Python runtime machinery.
- `JsonConfigStore` (eocdb_client/configstore.py:35-50) is not modelled. It consists only of file-system checks, `open`, and `json.load`/`json.dump`, which are I/O and a serialisation library outside this model.
- Insertion order of Python dictionaries is not modelled. A `map` has no key order, so the model does not capture that `read` lists keys in insertion order, or that `update` keeps the position of an existing key and appends new keys.
- Shallow copying and aliasing of nested mutable values returned by `read` are not modelled. Map values in Dafny are immutable, so this question does not arise.
- JSON value structure and number semantics are not modelled. Values are an opaque type parameter.
- ConfigStore.MemConfigStore.constructor: takes a `map<string, V>` in place of Python keyword arguments. `**config` always builds a fresh dictionary, and a Dafny map value matches that. One key differs: `"self"` cannot be passed as a keyword, because it collides with the method's own `self` parameter, and the source raises `TypeError`. The model does not capture that error; its `requires "self" !in initial` excludes the key instead.
