# Basement: per-thread handle cache and detachment, in Dafny

Basement is a thin layer over RealmSwift. Two parts of it hold real logic, and this project models both and proves properties of the models.

- **The handle cache behind `Container`** (`container.dfy`, module `HandleCache`). Every container shares one thread-specific slot, the static `_realm`, which holds at most one `RealmWrapper` per thread.
  - `init(configuration:queue:)` replaces the running thread's wrapper when the slot is empty or holds a different configuration.
  - `wrapper()` returns whatever the slot holds. On an empty slot it opens a wrapper with the container's own configuration and queue, and stores it.
  - `realm()` returns that wrapper's handle. `newInstance(queue:)` builds a container with the same configuration.

  The slot is a class `ThreadSlot` with a field `values: map<ThreadId, RealmWrapper>`. Wrappers and handles are objects, so "the same wrapper" means the same reference, and a replaced wrapper is a `fresh` one. The running thread is an explicit `tid` argument. Opening a wrapper can fail. Whether the store engine succeeds is an `OpenOutcome` argument (`Opens` or `FailsWith(error)`), and a throwing call returns a `Result`.
- **Detachment** (`detach.dfy`, module `Detach`). This is the deep copy `Object.detached()`, with the two `List.detached()` overloads and the `Sequence` / `RealmCollection` versions. An object is a value: its `Kind` and a map from property name to `Value`. A missing name reads as `nil`. The kind carries the class's schema, an ordered sequence of `(name, Primitive | ToOne | ToMany)`, and the values a fresh `init()` gives. A `Value` is a plain scalar, a link to an object, a list of objects or a list of scalars.
  - The copy is specified by recursive functions: `Detach`, `CopyProperties` (the loop over the schema as a left fold), `Visit` (one turn of the loop), `DetachedValue` (`(value as? DetachableObject)?.detached()`) and `DetachAll` (the element-wise map).
  - The source's own loops and appends are the methods `ObjectDetached`, `DetachableDetached`, `ListDetached` and `ScalarListDetached`. Each is proved equal to its function.
  - The copying code keeps no visited set, so the model ranges over finite trees. Termination follows from structural decrease.

`wrappers.dfy` holds the `Option` and `Result` datatypes both modules use.

### Behaviour of the code worth knowing

- `wrapper()` does not compare configurations (`Container.swift:40-42`). Only `init` does (`Container.swift:24`). So after a second container with another configuration replaces the thread's slot, an earlier container resolves to the new store. `WrapperFollowsLatestInit` proves this.
- Detachment keeps no visited set (`Detach.swift:11-28`). On a cyclic graph it would not terminate, and a sub-object reached twice is copied twice. The model therefore ranges over finite trees only.
- A `nil` source property is skipped (`Detach.swift:14`), so the copy keeps the value `init()` gave that property rather than `nil`. This is visible for an optional primitive with a non-`nil` declared default. `DetachField` states it. `DetachFixesComplete` and `DetachFixesOnlyComplete` together show that a well-formed copy equals its source exactly when the source is `Complete`.
- In a list or link property, a value that is not `DetachableObject` is stored as `nil`, through the `as?` cast (`Detach.swift:17-18,21-22`). The model keeps this case.

## Model

| member | source | states |
|---|---|---|
| `Detach.ObjectDetached` | Sources/Basement/Utils/Detach.swift:11-28 | The copy has the source's kind, for every schema including an empty one. The loop over the schema gives exactly `Detach(o)`. It starts from a fresh instance of the same kind, skips `nil` properties, detaches list and link properties and copies the rest. The loop invariant ties the partly filled copy to `CopyProperties` over the visited prefix of the schema. |
| `Detach.DetachableDetached` | Sources/Basement/Utils/Detach.swift:17-18 | The `as?` dispatch gives `DetachedValue(v)`. A link is recursively detached, an object list is detached element-wise, a scalar list is copied, and a plain value gives `nil`. |
| `Detach.ListDetached` | Sources/Basement/Utils/Detach.swift:31-36 | Appending the detached elements to an empty list gives `DetachAll(objects)`: the same length, with element i the copy of source element i. |
| `Detach.ScalarListDetached` | Sources/Basement/Utils/Detach.swift:39-45 | Appending each element to an empty list gives the same elements in the same order. |
| `Detach.DetachAll` | Sources/Basement/Utils/Detach.swift:48-58 | The result has the length of the input, and element i is `Detach` of input element i. |
| `Detach.DetachAllConcat` | Sources/Basement/Utils/Detach.swift:50 | Detaching a concatenation gives the concatenation of the detached parts, so order is kept segment by segment. |
| `Detach.DetachField` | Sources/Basement/Utils/Detach.swift:12-26 | The copy has the source's kind. Each declared property of the copy is determined by the same-named source property alone. A `nil` property keeps its `init()` value. A primitive is copied unchanged. A link holds `Detach` of the linked object. An object list has the same length, with element i detached. A scalar list keeps the same elements. A plain value in a link or list property gives `nil`. |
| `Detach.DetachUndeclared` | Sources/Basement/Utils/Detach.swift:12-13 | A name the schema does not declare is never visited, so the copy holds what `init()` gave it. |
| `Detach.DetachedSound` | Sources/Basement/Utils/Detach.swift:11-28 | The copy of a well-formed object is well-formed: it has only declared properties, each fitting its kind, at every depth. It is also complete: no property is `nil` where `init()` gives a value. |
| `Detach.DetachFixesComplete` | Sources/Basement/Utils/Detach.swift:11-28 | The copy of a well-formed, complete object is structurally equal to the source. |
| `Detach.DetachFixesOnlyComplete` | Sources/Basement/Utils/Detach.swift:14 | Conversely, if the copy of a well-formed object equals the source, the source is complete: a `nil` property where `init()` gives a value always changes in the copy. |
| `Detach.DetachIdempotent` | Sources/Basement/Utils/Detach.swift:11-28 | Detaching the copy of a well-formed object again gives a structurally equal object. |
| `HandleCache.OpenWrapper` | Sources/Basement/Container.swift:25 | Opening gives a fresh wrapper with the requested configuration and queue, or the engine's error. |
| `HandleCache.Container.Init` | Sources/Basement/Container.swift:21-27 | If the thread's slot holds a wrapper with an equal configuration, the very same wrapper stays and nothing is opened. Otherwise, when the slot is empty or its configuration differs: on success a fresh wrapper with the requested configuration and queue replaces it, and on failure the error is returned with the slot unchanged. Other threads' entries never change. After a success the slot's configuration is the requested one. |
| `HandleCache.Container.NewInstance` | Sources/Basement/Container.swift:30-32 | The new container has this container's configuration and the given queue. The slot behaves as in `Init` with that configuration and queue: a newly stored wrapper has the given queue. |
| `HandleCache.Container.Wrapper` | Sources/Basement/Container.swift:39-44 | An occupied slot is returned as it is, whatever its configuration, and nothing changes. On an empty slot: a successful open stores and returns a fresh wrapper with the container's configuration and queue, and a failed one returns the error and changes nothing. Other threads' entries never change. |
| `HandleCache.Container.ResolveRealm` | Sources/Basement/Container.swift:35-37 | The handle of the wrapper `Wrapper` would return, with the same effect on the slot. A newly stored wrapper has the container's configuration and queue. |
| `HandleCache.WrapperIsCached` | Sources/Basement/Container.swift:40-44 | After a successful `wrapper()`, a second call on the same thread returns the same wrapper. Other threads' entries are unchanged. |
| `HandleCache.EqualConfigurationsShareWrapper` | Sources/Basement/Container.swift:24 | Two containers created on one thread with equal configurations, whatever their queues, resolve to the same cached wrapper once the first is created. The slot after the second `init` is exactly the slot the first `init` left, so the second container opened nothing, and the shared wrapper is the one the first `init` stored or found. It has that configuration. |
| `HandleCache.WrapperFollowsLatestInit` | Sources/Basement/Container.swift:40-42 | After a container with configuration `b` replaces a thread's slot, an earlier container with a different configuration `a` resolves to the wrapper for `b`. |

## Left out

- `Sources/Basement/Actions.swift` as a whole. `write`, `write(_:block:)` and `deleteAll` hand their work to `Realm.write`. `instanceWrite` is `newInstance().write`. `writeAsync` hands its work to `WriteTransaction.async`, which is not part of this model and is queue-based concurrency. `item` and `items` are single calls into Realm. `kill` calls `Realm.flushDatabase`. `wipeAll` is file-system I/O through `cleanFolder`, which is not part of this model.
- The debug print in `wrapper()` (`Container.swift:45-49`). It is diagnostic output only.
- The mechanics of `ThreadSpecificVariable` and `DispatchQueue`, and concurrency in general. The running thread is a `tid` argument, the model is sequential, and a queue is an opaque identifier.
- The static slot `_realm`. It is a `ThreadSlot` object passed to `Init`, and every container built from it keeps a reference to it. Callers that want the source's single shared slot pass the same `ThreadSlot` each time. `Container.Make` is internal and only `Init` calls it.
- `Container.defaultConfiguration` and the default arguments of `init` and `newInstance`. Callers pass every argument explicitly.
- `RealmWrapper` internals, the files that opening a store creates, and the reasons opening can fail. Opening is an outcome the caller supplies.
- `Realm.Configuration` has more fields than the ones modelled. Only equality of configurations matters to the cache.
- Realm's key-value coding and schema reflection (`objectSchema`, `value(forKey:)`, `setValue(_:forKey:)`). The kind carries an explicit schema. `setValue` stores its value as given, and Realm's type coercion is not modelled.
- Object identity in detachment. Objects and lists are values, so the fresh allocation of `init()` and `List()` (`Detach.swift:12,33,41`) and aliasing between source and copy are not modelled. In the code the copy shares no object or list with the source, because each one is built fresh.
- Cycles. The code has no cycle detection and would not terminate on a cyclic graph, so the model includes only finite, acyclic objects.
- Floating-point and date properties. `Scalar` has integers, booleans, strings and data. The copy treats every scalar the same way.
- How Swift picks between the two `List.detached()` overloads. The model decides by the element type of the list: object lists are detached element-wise, and scalar lists are copied.
- Detach.DetachField: stated only for schemas whose property names are distinct, as Realm's are. With a repeated name the last visit wins, and the lemma does not describe that case.
- Detach.DetachedSound, Detach.DetachFixesComplete, Detach.DetachIdempotent: stated for well-formed objects only. In these every value fits its property's kind, and a fresh instance holds no links and only empty lists. For other objects the copy is still computed, but it may differ from a second copy.
