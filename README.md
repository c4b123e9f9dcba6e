# kopf resource memories, in Dafny

A model of kopf's in-memory store of per-object state (`kopf/structs/containers.py`).
The operator keeps one mutable `ResourceMemory` record for every Kubernetes object it
handles. The records live in a `ResourceMemories` container, keyed by the object's
`metadata.uid`. A record holds:

- the user `memo`: a dictionary whose entries can also be read and written as attributes;
- the `noticed_by_listing` and `fully_handled_once` flags;
- the last-seen body;
- the idle-reset time;
- the handlers stopped forever;
- the running daemons.

Files:

- `wrappers.dfy`: `Option` and `Result`. Exceptions kopf's code raises are returned as
  `Err`/`Some(error)` values.
- `bodies.dfy`: raw bodies as JSON-like values (`Value`, `RawBody`), Python truthiness and
  `dict.get`.
- `memos.dfy`: `Memo`, a class over `map<string, Value>` with item access and attribute access
  over the same storage.
- `memories.dfy`: key derivation (`BuildKey`) and the `ResourceMemory` record class. Also the
  `ResourceMemories` container, a class over `map<string, ResourceMemory>` whose methods
  update the map in place. Records are objects, so "the same record is returned" is stated
  as reference equality.

The container's invariant `Valid()` says that no record is stored under two keys. `recall`
and `forget` contain no `await`, so they are modelled as ordinary sequential methods.

The lemma `ReplayedKeys` is about a whole sequence of recalls and forgets. It says a key is
stored exactly when the last call that named it was a recall. `Recall` and `Forget` state
their effect on the key set through `Apply`, the one-step function that `ReplayedKeys` is
built from. `RunCalls` runs such a sequence on an actual store and proves that the keys it
ends up holding are the ones `Replay` predicts.

Two behaviours of kopf's code that the model keeps:

- The docstring of `recall` says it keeps the last-seen body up to date. The code never
  touches `live_fresh_body`, so `Recall` leaves it as it is.
- Missing keys fail differently on the two surfaces of the memo: attribute access raises
  `AttributeError` and subscript access raises `KeyError`.

## Model

| member | source | states |
|---|---|---|
| Memories.BuildKey | kopf/structs/containers.py:132-145 | The key is `metadata.uid` when it is a string, including the empty string. It is `""` when there is no metadata, no uid, or a falsy uid. A non-mapping `metadata` is an error. A non-empty key is always the body's own uid string. |
| Memories.KeyDependsOnlyOnUid | kopf/structs/containers.py:145 | Two bodies whose metadata are mappings and whose `uid`s agree get the same key, whatever else they contain. |
| Memories.ResourceMemory.constructor | kopf/structs/containers.py:58-73 | A new record has a fresh empty memo and `noticed_by_listing` as given. `fully_handled_once` is false. The last-seen body is `None`. The idle-reset time is the clock reading. The stopped-handler set and the daemon map are empty. |
| Memories.ResourceMemories.constructor | kopf/structs/containers.py:96-98 | A new container is empty and valid. |
| Memories.ResourceMemories.IterAllMemories | kopf/structs/containers.py:100-102 | Yields exactly the stored records, each exactly once, as many as there are keys. The container is not changed. |
| Memories.ResourceMemories.Recall | kopf/structs/containers.py:104-119 | For a stored key: returns that same record, ignores the flag and leaves the map unchanged. For a new key: inserts exactly one fresh record with default fields under that key and returns it. Either way the key is then present, no other key changes, and no record is stored under two keys. A key error changes nothing. |
| Memories.ResourceMemories.Forget | kopf/structs/containers.py:121-130 | The new map is the old map minus the key. An absent key leaves it unchanged, no other entry changes, and a second call changes nothing. A key error changes nothing. |
| Memories.ReplayedKeys | kopf/structs/containers.py:115-130 | After any sequence of recalls and forgets, a key is stored if and only if the last call naming it was a recall. If no call names it, it is stored if and only if it was stored at the start. |
| Memories.ForgetTwice | kopf/structs/containers.py:121-130 | Two `forget` calls on one body leave the store as one call does: only that body's key is removed, and both calls report the same outcome. |
| Memories.ForgetThenRecall | kopf/structs/containers.py:115-130 | `forget` followed by `recall` on the same body returns a fresh record with a fresh, empty memo and default fields, never the record that was forgotten. The store then holds that record under the key, and every other entry is unchanged. A key error leaves the store unchanged. |
| Memories.RunCalls | kopf/structs/containers.py:104-130 | Running any sequence of recalls and forgets on a store leaves exactly the keys that `Replay` predicts, and the store stays valid. |
| Memos.Memo.constructor | kopf/structs/containers.py:63 | A new memo is empty. |
| Memos.Memo.GetItem | kopf/structs/containers.py:39 | `memo[key]` returns the stored value exactly when the key is present; otherwise it raises `KeyError(key)`. |
| Memos.Memo.SetItem | kopf/structs/containers.py:39 | `memo[key] = value` binds the key and leaves every other entry as it was. |
| Memos.Memo.DelItem | kopf/structs/containers.py:39 | `del memo[key]` removes the key if present; otherwise it raises `KeyError(key)` and nothing changes. |
| Memos.Memo.GetAttr | kopf/structs/containers.py:51-55 | For a dictionary attribute name such as `keys`, `memo.key` gives the dictionary's own attribute. For any other name it succeeds exactly when `memo[key]` does, with the same value. Where `memo[key]` raises `KeyError`, it raises `AttributeError(key)`. |
| Memos.Memo.SetAttr | kopf/structs/containers.py:42-43 | `memo.key = value` stores into the same dictionary as `memo[key] = value`, even for dictionary attribute names. Afterwards `memo[key]` gives the value, and so does `memo.key` for any non-dictionary name. |
| Memos.Memo.DelAttr | kopf/structs/containers.py:45-49 | `del memo.key` removes the same entry as `del memo[key]`. A missing key raises `AttributeError(key)` instead of `KeyError` and changes nothing. |

## Left out

- Memories.BuildKey: kopf's code returns a truthy non-string `uid` (a number, list or mapping) as-is, as a non-string key. The model reports it as `NonStringUid` and stores nothing, because the container is keyed by strings, as its declared key type says.
- The `Daemon` dataclass (task, logger, handler, stopper) is an opaque token, because its parts are asyncio and handler types that are not part of this model.
- The daemon termination protocol (stop signal, cancellation backoff and timeout, abandonment) is not part of this model: its implementation lives in files outside `containers.py`.
- `idle_reset_time` comes from `time.monotonic()` in kopf's code. The model passes the clock reading to `Recall` as the `now` parameter.
- `noticed_by_listing` defaults to `False` in kopf's code; callers of `Recall` pass it explicitly.
- Dictionary iteration order (insertion order in Python) is not modelled: stores are Dafny maps, and `IterAllMemories` may yield records in any order.
- Memories.ResourceMemories.IterAllMemories: kopf's code is a lazy generator over the live `_items.values()` view. The model returns a snapshot of all records at once. Stopping early is not modelled. A recall or forget during iteration is not modelled either; in Python it raises `RuntimeError` ("dictionary changed size during iteration").
- Memos.Memo.GetAttr: every name shaped like `__name__` is treated as one of the dictionary's own attributes. Python only finds the special names that `dict`, `object` and `typing.Generic` actually define, and passes any other dunder name to `__getattr__`. Other class attributes that `Dict[Any, Any]` brings in through `typing.Generic` are also not in the model's list. On Python 3.8 to 3.11, one example is `_is_protocol`: `memo._is_protocol` gives the class attribute there, not the memo entry.
- Memos.Memo.GetAttr, Memos.Memo.DelAttr: kopf's code raises `AttributeError(str(e))`, whose message is the key's repr (`'x'` with quotes). The model's `AttributeError(key)` carries the key itself.
- Memos.Memo.GetItem, Memos.Memo.SetItem, Memos.Memo.DelItem: `Memo` is a `Dict[Any, Any]`, so any hashable value can be a key. The model allows only string keys, the names that attribute access can use.
- Memo values are `Value`, the JSON-like values of raw bodies. They stand in for the arbitrary Python objects users store.
- `async`, concurrency and locking are not modelled. The container relies on each object being handled sequentially, so each call is modelled as one atomic step.
